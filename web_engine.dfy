/**
 * `WebEngine` and its companions (WebEngine.swift): the reconciliation of
 * script-message handlers and user scripts with the user-content controller,
 * the routing of messages that page scripts post, the one-shot page-load
 * delegate behind `awaitPageLoaded`, the Android engine delegate's
 * user-script injection, and the equalities of `WebViewUserScript` and
 * `WebViewMessage`.
 *
 * The platform web view is reduced to what these rules observe: the names
 * the user-content controller has handlers for, its list of user scripts,
 * and which delegate (WebKit's `navigationDelegate`, Android's
 * `webViewClient`) receives navigation events.
 */
module Engine {
  import opened Wrappers
  import opened SkipWeb

  /** Which branch of the source is compiled: WebKit (`#if !SKIP`) or Android (`#if SKIP`). */
  datatype Platform = Apple | Android

  // ---------------------------------------------------------------------------
  // User scripts
  // ---------------------------------------------------------------------------

  datatype InjectionTime = AtDocumentStart | AtDocumentEnd

  datatype ContentWorld = Page | DefaultClient | NamedWorld(name: string)

  /** The platform's own user script (`WKUserScript`, or the Android stand-in class). */
  datatype PlatformScript = PlatformScript(
    source: string,
    injectionTime: InjectionTime,
    forMainFrameOnly: bool,
    world: ContentWorld
  )

  datatype WebViewUserScript = WebViewUserScript(
    source: string,
    webKitUserScript: PlatformScript,
    allowedDomains: set<string>
  )

  /** The memberwise initializer: the platform script carries the same source. */
  function MakeUserScript(
    source: string, injectionTime: InjectionTime, forMainFrameOnly: bool,
    world: ContentWorld, allowedDomains: set<string>
  ): (s: WebViewUserScript)
    ensures s.source == s.webKitUserScript.source == source
    ensures s.webKitUserScript.injectionTime == injectionTime
    ensures s.allowedDomains == allowedDomains
  {
    WebViewUserScript(source, PlatformScript(source, injectionTime, forMainFrameOnly, world), allowedDomains)
  }

  /**
   * `WebViewUserScript.==`: source and allowed domains only, so two scripts
   * that differ only in their platform script are equal, and equal scripts
   * hash alike.
   */
  predicate SameUserScript(a: WebViewUserScript, b: WebViewUserScript)
    ensures a.(webKitUserScript := b.webKitUserScript) == b ==> SameUserScript(a, b)
    ensures SameUserScript(a, b) ==> UserScriptHashKey(a) == UserScriptHashKey(b)
  {
    a.source == b.source && a.allowedDomains == b.allowedDomains
  }

  /** What `WebViewUserScript.hash(into:)` feeds the hasher: the source and the allowed domains, nothing of the platform script. */
  function UserScriptHashKey(s: WebViewUserScript): (k: (string, set<string>))
    ensures k.0 == s.source && k.1 == s.allowedDomains
  {
    (s.source, s.allowedDomains)
  }

  /** Equal scripts hash alike, and the hash key tells scripts apart exactly as `==` does. */
  lemma UserScriptHashAgreesWithEquality(a: WebViewUserScript, b: WebViewUserScript)
    ensures SameUserScript(a, b) <==> UserScriptHashKey(a) == UserScriptHashKey(b)
  {
  }

  /** Stands for the JavaScript text that forwards `console.*` calls to the `skipConsoleLog` handler. */
  const ConsoleLogSource: string := "skipConsoleLog bridge script"

  const ConsoleLogHandlerName: string := "skipConsoleLog"

  /** `WebViewUserScript.systemScripts`: the console bridge on WebKit, nothing on Android. */
  function SystemScripts(platform: Platform): (r: seq<WebViewUserScript>)
    ensures platform == Android ==> r == []
    ensures platform == Apple ==>
      |r| == 1 && r[0].source == r[0].webKitUserScript.source == ConsoleLogSource
      && r[0].webKitUserScript.injectionTime == AtDocumentStart
      && r[0].webKitUserScript.forMainFrameOnly && r[0].webKitUserScript.world == Page
      && r[0].allowedDomains == {}
  {
    if platform == Apple then [MakeUserScript(ConsoleLogSource, AtDocumentStart, true, Page, {})] else []
  }

  /** `WebEngine.systemMessageHandlers`. */
  const SystemMessageHandlers: seq<string> := [ConsoleLogHandlerName]

  /** The platform scripts of a list of scripts, in order (`map { $0.webKitUserScript }`). */
  function PlatformScripts(s: seq<WebViewUserScript>): (r: seq<PlatformScript>)
    ensures |r| == |s| && forall i :: 0 <= i < |s| ==> r[i] == s[i].webKitUserScript
  {
    seq(|s|, i requires 0 <= i < |s| => s[i].webKitUserScript)
  }

  // ---------------------------------------------------------------------------
  // Configuration and messages
  // ---------------------------------------------------------------------------

  /** A configured message handler: an async closure, known here only by identity. */
  type HandlerId = nat

  /** The part of `WebEngineConfiguration` these rules read. */
  datatype Configuration = Configuration(
    userScripts: seq<WebViewUserScript>,
    messageHandlers: map<string, HandlerId>
  )

  /** A JavaScript value as WebKit bridges it into a message body. */
  datatype JsValue =
    | JsString(str: string)
    | JsNumber(num: int)
    | JsBool(flag: bool)
    | JsNull
    | JsArray(items: seq<JsValue>)
    | JsObject(fields: map<string, JsValue>)

  /** `body as? [String: String]`: succeeds exactly for an object all of whose values are strings. */
  function AsStringDictionary(v: JsValue): (r: Option<map<string, string>>)
    ensures r.Some? <==> v.JsObject? && forall k :: k in v.fields ==> v.fields[k].JsString?
    ensures r.Some? ==> r.value.Keys == v.fields.Keys
    ensures r.Some? ==> forall k :: k in r.value ==> v.fields[k] == JsString(r.value[k])
  {
    if v.JsObject? && forall k | k in v.fields :: v.fields[k].JsString? then
      Some(map k | k in v.fields :: v.fields[k].str)
    else
      None
  }

  /** `WKFrameInfo`; its identity is the `id`. */
  datatype FrameInfo = FrameInfo(id: nat, isMainFrame: bool, requestURL: Option<Url>)

  /** `WKScriptMessage`: what a page script posted, and to which handler name. */
  datatype ScriptMessage = ScriptMessage(name: string, body: JsValue, frameInfo: FrameInfo)

  datatype WebViewMessage = WebViewMessage(frameInfo: FrameInfo, uuid: string, name: string, body: JsValue)

  /** `WebViewMessage.==`: identifier, name and frame; two messages that differ only in their body are equal. */
  predicate SameMessage(a: WebViewMessage, b: WebViewMessage)
    ensures a.(body := b.body) == b ==> SameMessage(a, b)
    ensures SameMessage(a, b) ==> a.uuid == b.uuid
  {
    a.uuid == b.uuid && a.name == b.name && a.frameInfo == b.frameInfo
  }

  // ---------------------------------------------------------------------------
  // Routing of posted messages: `userContentController(_:didReceive:)`
  // ---------------------------------------------------------------------------

  /** The logger method a console line goes to. */
  datatype Severity = Debug | Info | Warning | Error

  /** The console levels the bridge script knows by name. */
  predicate KnownLevel(level: string) {
    level in {"debug", "info", "log", "warn", "error"}
  }

  /** The severity of a console level: unknown levels are logged as errors. */
  function ConsoleSeverity(level: string): (s: Severity)
    ensures s == Debug <==> level == "debug"
    ensures s == Info <==> level == "info" || level == "log"
    ensures s == Warning <==> level == "warn"
    ensures s == Error <==> level == "error" || !KnownLevel(level)
  {
    match level
    case "debug" => Debug
    case "info" => Info
    case "log" => Info
    case "warn" => Warning
    case _ => Error
  }

  /** What becomes of one posted message. */
  datatype Delivery =
    | ConsoleLine(severity: Severity, level: string, content: string, knownLevel: bool)
    | InvalidConsoleMessage
    | Dispatched(handler: HandlerId, message: WebViewMessage)
    | Unhandled

  /**
   * `userContentController(_:didReceive:)`. `uuid` stands for the fresh
   * `UUID()` the dispatched message gets.
   */
  function ReceiveMessage(config: Configuration, m: ScriptMessage, uuid: string): (d: Delivery)
    ensures m.name == ConsoleLogHandlerName <==> d.ConsoleLine? || d.InvalidConsoleMessage?
    ensures d.InvalidConsoleMessage? <==> m.name == ConsoleLogHandlerName && AsStringDictionary(m.body).None?
    ensures d.ConsoleLine? ==>
      var body := AsStringDictionary(m.body).value;
      && d.level == (if "level" in body then body["level"] else "log")
      && d.content == (if "content" in body then body["content"] else "")
      && d.severity == ConsoleSeverity(d.level)
      && d.knownLevel == KnownLevel(d.level)
    ensures d.Dispatched? <==> m.name != ConsoleLogHandlerName && m.name in config.messageHandlers
    ensures d.Dispatched? ==>
      d.handler == config.messageHandlers[m.name]
      && d.message == WebViewMessage(m.frameInfo, uuid, m.name, m.body)
  {
    if m.name == ConsoleLogHandlerName then
      match AsStringDictionary(m.body)
      case None => InvalidConsoleMessage
      case Some(body) =>
        var level := if "level" in body then body["level"] else "log";
        var content := if "content" in body then body["content"] else "";
        ConsoleLine(ConsoleSeverity(level), level, content, KnownLevel(level))
    else if m.name in config.messageHandlers then
      Dispatched(config.messageHandlers[m.name], WebViewMessage(m.frameInfo, uuid, m.name, m.body))
    else
      Unhandled
  }

  /** A console message whose string fields carry neither level nor content is an info line "log" with empty content. */
  lemma ConsoleDefaults(config: Configuration, fields: map<string, JsValue>, frame: FrameInfo, uuid: string)
    requires forall k :: k in fields ==> fields[k].JsString?
    requires "level" !in fields && "content" !in fields
    ensures ReceiveMessage(config, ScriptMessage(ConsoleLogHandlerName, JsObject(fields), frame), uuid)
         == ConsoleLine(Info, "log", "", true)
  {
  }

  /** A configured handler named `skipConsoleLog` never receives anything: the console route comes first. */
  lemma ConsoleRouteShadowsConfiguredHandler(config: Configuration, m: ScriptMessage, uuid: string)
    requires m.name == ConsoleLogHandlerName && m.name in config.messageHandlers
    ensures !ReceiveMessage(config, m, uuid).Dispatched?
  {
  }

  // ---------------------------------------------------------------------------
  // Navigation delegates
  // ---------------------------------------------------------------------------

  /**
   * The object a platform web view sends navigation events to: an engine
   * delegate (`WebEngineDelegate`), the temporary page-load delegate of
   * `awaitPageLoaded` (a `WebEngineDelegate` subclass), or any other object
   * (a `WebViewCoordinator`, Android's default `WebViewClient`).
   */
  datatype ClientRef = EngineDelegateRef(id: nat) | PageLoaderRef | ForeignClient(id: nat)

  /** The `engineDelegate` getter: the current client when it is a `WebEngineDelegate`. */
  function EngineDelegateOf(client: Option<ClientRef>): (r: Option<ClientRef>)
    ensures r.Some? <==> client.Some? && !client.value.ForeignClient?
    ensures r.Some? ==> r == client
  {
    if client.Some? && !client.value.ForeignClient? then client else None
  }

  /**
   * The client after the `engineDelegate` setter runs: WebKit assigns the new
   * value, Android keeps the current client when given nothing
   * (`newValue ?? webView.webViewClient`).
   */
  function AssignedClient(platform: Platform, current: Option<ClientRef>, newValue: Option<ClientRef>): (r: Option<ClientRef>)
    ensures newValue.Some? ==> r == newValue
    ensures newValue.None? ==> r == (if platform == Apple then None else current)
  {
    if platform == Apple then newValue else if newValue.Some? then newValue else current
  }

  /**
   * The client after `awaitPageLoaded` has returned, as written: the getter's
   * value was saved, the page-load delegate installed, and the saved value
   * assigned back through the setter.
   */
  function ClientAfterAwait(platform: Platform, before: Option<ClientRef>): (r: Option<ClientRef>)
    ensures platform == Apple ==> r == EngineDelegateOf(before)
    ensures platform == Android ==> r == (if EngineDelegateOf(before).Some? then before else Some(PageLoaderRef))
  {
    AssignedClient(platform, AssignedClient(platform, before, Some(PageLoaderRef)), EngineDelegateOf(before))
  }

  /** On WebKit the `engineDelegate` seen after the call is the one seen before it. */
  lemma AppleAwaitRestoresEngineDelegate(before: Option<ClientRef>)
    ensures EngineDelegateOf(ClientAfterAwait(Apple, before)) == EngineDelegateOf(before)
  {
  }

  /** When the client before the call was an engine delegate, both platforms put it back. */
  lemma AwaitRestoresEngineDelegateClient(platform: Platform, before: Option<ClientRef>)
    requires before.Some? && !before.value.ForeignClient?
    ensures ClientAfterAwait(platform, before) == before
  {
  }

  /**
   * As written, the save goes through the typed getter, so a client that is
   * not an engine delegate is not restored: WebKit drops it (a
   * `WebViewCoordinator` stops receiving navigation events), and Android
   * leaves the page-load delegate installed.
   */
  lemma AwaitLosesForeignClient(id: nat)
    ensures ClientAfterAwait(Apple, Some(ForeignClient(id))) == None
    ensures ClientAfterAwait(Android, Some(ForeignClient(id))) == Some(PageLoaderRef)
    ensures ClientAfterAwait(Android, None) == Some(PageLoaderRef)
  {
  }

  /** The intended restore: the raw client saved before the call is put back as it was. */
  function ClientAfterAwaitFixed(platform: Platform, before: Option<ClientRef>): (r: Option<ClientRef>)
    ensures EngineDelegateOf(r) == EngineDelegateOf(before)
  {
    before
  }

  /**
   * Where the written restore goes wrong, the corrected one does not: a client
   * that is not an engine delegate, or no client at all, is put back as it was.
   */
  lemma FixedAwaitKeepsForeignClient(platform: Platform, id: nat)
    ensures ClientAfterAwaitFixed(platform, Some(ForeignClient(id))) == Some(ForeignClient(id))
    ensures ClientAfterAwaitFixed(platform, None) == None
  {
  }

  /** The corrected restore agrees with the written one wherever the written one is right. */
  lemma FixedAwaitAgreesOnEngineDelegates(platform: Platform, before: Option<ClientRef>)
    requires before.Some? && !before.value.ForeignClient?
    ensures ClientAfterAwaitFixed(platform, before) == ClientAfterAwait(platform, before)
  {
    AwaitRestoresEngineDelegateClient(platform, before);
  }

  // ---------------------------------------------------------------------------
  // The one-shot page-load delegate
  // ---------------------------------------------------------------------------

  /** A navigation error (`Error`, or Android's `WebLoadError(msg:code:)`). */
  datatype LoadError = LoadError(code: int, description: string)

  /** What the page-load callback receives. */
  datatype LoadResult = Loaded | LoadFailed(error: LoadError)

  /**
   * A navigation event as the page-load delegate sees it: WebKit's
   * `didFinish`/Android's `onPageFinished`, WebKit's `didFail`/Android's
   * `onReceivedError`, WebKit's `didFailProvisionalNavigation` (a load that
   * never commits, such as an unreachable host), or any other event.
   */
  datatype NavEvent = Finished | Failed(error: LoadError) | FailedProvisionally(error: LoadError) | OtherEvent

  /** The events the page-load delegate overrides; it has no `didFailProvisionalNavigation`. */
  predicate Terminal(e: NavEvent) {
    e.Finished? || e.Failed?
  }

  function ResultOf(e: NavEvent): LoadResult
    requires Terminal(e)
  {
    if e.Finished? then Loaded else LoadFailed(e.error)
  }

  /** The callback invocations an event trace causes: the result of its first terminal event, if any. */
  function Resolution(events: seq<NavEvent>): (r: seq<LoadResult>)
    ensures |r| <= 1
  {
    if events == [] then []
    else if Terminal(events[0]) then [ResultOf(events[0])]
    else Resolution(events[1..])
  }

  /** The resolution is the result of the first terminal event, and there is one exactly when some event is terminal. */
  lemma {:induction false} ResolutionIsFirstTerminal(events: seq<NavEvent>)
    ensures Resolution(events) != [] <==> exists i :: 0 <= i < |events| && Terminal(events[i])
    ensures Resolution(events) != [] ==>
      exists i :: 0 <= i < |events| && Terminal(events[i]) && Resolution(events) == [ResultOf(events[i])]
        && forall j :: 0 <= j < i ==> !Terminal(events[j])
  {
    if events != [] && !Terminal(events[0]) {
      ResolutionIsFirstTerminal(events[1..]);
      if Resolution(events) != [] {
        var i :| 0 <= i < |events[1..]| && Terminal(events[1..][i]) && Resolution(events[1..]) == [ResultOf(events[1..][i])]
          && forall j :: 0 <= j < i ==> !Terminal(events[1..][j]);
        assert Terminal(events[i + 1]);
        forall j | 0 <= j < i + 1 ensures !Terminal(events[j]) {
          if j > 0 { assert events[j] == events[1..][j - 1]; }
        }
      }
      if exists i :: 0 <= i < |events| && Terminal(events[i]) {
        var i :| 0 <= i < |events| && Terminal(events[i]);
        assert events[1..][i - 1] == events[i];
      }
    }
  }

  /** Events after the first terminal one change nothing. */
  lemma {:induction false} ResolutionIgnoresLaterEvents(events: seq<NavEvent>, later: seq<NavEvent>)
    requires Resolution(events) != []
    ensures Resolution(events + later) == Resolution(events)
  {
    if !Terminal(events[0]) {
      assert (events + later)[1..] == events[1..] + later;
      ResolutionIgnoresLaterEvents(events[1..], later);
    }
  }

  /** Appending one event to a trace that has not resolved yet. */
  lemma {:induction false} ResolutionExtend(events: seq<NavEvent>, e: NavEvent)
    requires Resolution(events) == []
    ensures Resolution(events + [e]) == (if Terminal(e) then [ResultOf(e)] else [])
  {
    if events != [] {
      assert (events + [e])[1..] == events[1..] + [e];
      ResolutionExtend(events[1..], e);
    }
  }

  /**
   * A load that fails before it commits never resolves the callback as
   * written: the page-load delegate has no `didFailProvisionalNavigation`, so
   * `load(url:)` stays suspended.
   */
  lemma {:induction false} ProvisionalFailureNeverResolves(events: seq<NavEvent>)
    requires forall i :: 0 <= i < |events| ==> events[i].FailedProvisionally? || events[i].OtherEvent?
    ensures Resolution(events) == []
  {
    if events != [] {
      ProvisionalFailureNeverResolves(events[1..]);
    }
  }

  /** The events a delegate that also overrides `didFailProvisionalNavigation` resolves on: a provisional failure counts as a failure. */
  function WithProvisionalFailures(events: seq<NavEvent>): (r: seq<NavEvent>)
    ensures |r| == |events|
    ensures forall i :: 0 <= i < |events| ==>
      r[i] == (if events[i].FailedProvisionally? then Failed(events[i].error) else events[i])
  {
    seq(|events|, i requires 0 <= i < |events| => if events[i].FailedProvisionally? then Failed(events[i].error) else events[i])
  }

  /**
   * With `didFailProvisionalNavigation` handled like `didFail`, every trace
   * that contains a finish or any failure resolves, and a provisional failure
   * first resolves to that failure.
   */
  lemma ProvisionalFailureResolvesWhenHandled(events: seq<NavEvent>)
    ensures Resolution(WithProvisionalFailures(events)) != [] <==>
      exists i :: 0 <= i < |events| && !events[i].OtherEvent?
    ensures events != [] && events[0].FailedProvisionally? ==>
      Resolution(WithProvisionalFailures(events)) == [LoadFailed(events[0].error)]
  {
    var w := WithProvisionalFailures(events);
    ResolutionIsFirstTerminal(w);
    if exists i :: 0 <= i < |events| && !events[i].OtherEvent? {
      var i :| 0 <= i < |events| && !events[i].OtherEvent?;
      assert Terminal(w[i]);
    }
  }

  /** `PageLoadDelegate`: resolves its callback once, on the first finish or failure. */
  class PageLoadDelegate {
    var callbackInvoked: bool
    /** The callback's invocations so far, in order. */
    var delivered: seq<LoadResult>

    ghost predicate Valid()
      reads this
    {
      |delivered| <= 1 && (callbackInvoked <==> delivered != [])
    }

    constructor ()
      ensures Valid() && !callbackInvoked && delivered == []
    {
      callbackInvoked := false;
      delivered := [];
    }

    /** `webView(_:didFinish:)` / `onPageFinished`. */
    method DidFinish()
      requires Valid()
      modifies this
      ensures Valid() && callbackInvoked
      ensures delivered == if old(callbackInvoked) then old(delivered) else [Loaded]
    {
      if callbackInvoked { return; }
      callbackInvoked := true;
      delivered := delivered + [Loaded];
    }

    /** `webView(_:didFail:withError:)` / `onReceivedError`. */
    method DidFail(error: LoadError)
      requires Valid()
      modifies this
      ensures Valid() && callbackInvoked
      ensures delivered == if old(callbackInvoked) then old(delivered) else [LoadFailed(error)]
    {
      if callbackInvoked { return; }
      callbackInvoked := true;
      delivered := delivered + [LoadFailed(error)];
    }

    /** Delivers a trace of navigation events, one after the other. */
    method HandleAll(events: seq<NavEvent>)
      requires Valid() && !callbackInvoked
      modifies this
      ensures Valid()
      ensures delivered == Resolution(events)
    {
      var i := 0;
      while i < |events|
        invariant 0 <= i <= |events|
        invariant Valid()
        invariant delivered == Resolution(events[..i])
      {
        var e := events[i];
        assert events[..i + 1] == events[..i] + [e];
        if delivered != [] {
          ResolutionIgnoresLaterEvents(events[..i], [e]);
        } else {
          ResolutionExtend(events[..i], e);
        }
        match e {
          case Finished => DidFinish();
          case Failed(err) => DidFail(err);
          case FailedProvisionally(_) =>
          case OtherEvent =>
        }
        i := i + 1;
      }
      assert events[..i] == events;
    }
  }

  // ---------------------------------------------------------------------------
  // The engine
  // ---------------------------------------------------------------------------

  /** The state of a platform web view handed to the engine's initializer. */
  datatype WebViewHandle = WebViewHandle(
    handlers: set<string>,
    scripts: seq<PlatformScript>,
    client: Option<ClientRef>
  )

  /** A newly created platform web view: no handlers, no scripts; Android installs its default client. */
  function FreshWebView(platform: Platform): WebViewHandle {
    WebViewHandle({}, [], if platform == Apple then None else Some(ForeignClient(0)))
  }

  /** The handler names `refreshMessageHandlers` wants registered. */
  function WantedHandlerNames(config: Configuration): (r: set<string>)
    ensures ConsoleLogHandlerName in r && config.messageHandlers.Keys <= r
    ensures forall n :: n in r ==> n == ConsoleLogHandlerName || n in config.messageHandlers
  {
    (set n | n in SystemMessageHandlers) + config.messageHandlers.Keys
  }

  /**
   * The controller's handler names after `refreshMessageHandlers`: wanted
   * names not yet registered are (re)added, registered names no longer wanted
   * are removed, and everything else is left alone.
   */
  function RefreshedHandlers(controller: set<string>, registered: set<string>, wanted: set<string>): (r: set<string>)
    ensures forall n :: n in wanted && n !in registered ==> n in r
    ensures forall n :: n in registered && n !in wanted ==> n !in r
    ensures forall n :: (n in registered <==> n in wanted) ==> (n in r <==> n in controller)
  {
    (controller + (wanted - registered)) - (registered - wanted)
  }

  /** Refreshing an engine whose registrations already match the configuration changes nothing. */
  lemma RefreshIsIdempotent(controller: set<string>, wanted: set<string>)
    ensures RefreshedHandlers(controller, wanted, wanted) == controller
  {
  }

  /** When every registered name has a handler in the controller, afterwards every wanted name does. */
  lemma RefreshInstallsWanted(controller: set<string>, registered: set<string>, wanted: set<string>)
    requires registered <= controller
    ensures wanted <= RefreshedHandlers(controller, registered, wanted)
  {
  }

  /**
   * The controller's scripts after `updateUserScripts`: untouched when they already match, replaced otherwise.
   * Scripts are compared as values, counted with multiplicity; the platform compares script objects.
   */
  function UpdatedScripts(current: seq<PlatformScript>, target: seq<PlatformScript>): (r: seq<PlatformScript>)
    ensures multiset(r) == multiset(target)
  {
    if multiset(current) == multiset(target) then current else target
  }

  /** A second update right after the first changes nothing. */
  lemma UpdateScriptsIsIdempotent(current: seq<PlatformScript>, target: seq<PlatformScript>)
    ensures UpdatedScripts(UpdatedScripts(current, target), target) == UpdatedScripts(current, target)
  {
  }

  class WebEngine {
    const configuration: Configuration
    const platform: Platform
    var registeredMessageHandlerNames: set<string>
    /** The names the user-content controller has a script-message handler for. */
    var controllerHandlers: set<string>
    /** The user-content controller's user scripts. */
    var controllerScripts: seq<PlatformScript>
    /** The web view's `navigationDelegate` (WebKit) or `webViewClient` (Android). */
    var client: Option<ClientRef>

    /** `init(configuration:webView:)`: a given web view is adopted as it is, otherwise a fresh one is made. */
    constructor (configuration: Configuration, platform: Platform, webView: Option<WebViewHandle>)
      ensures this.configuration == configuration && this.platform == platform
      ensures registeredMessageHandlerNames == {}
      ensures var w := webView.GetOr(FreshWebView(platform));
        controllerHandlers == w.handlers && controllerScripts == w.scripts && client == w.client
    {
      this.configuration := configuration;
      this.platform := platform;
      var w := webView.GetOr(FreshWebView(platform));
      registeredMessageHandlerNames := {};
      controllerHandlers := w.handlers;
      controllerScripts := w.scripts;
      client := w.client;
    }

    /** The scripts `updateUserScripts` installs: the system scripts, then the configured ones. */
    function TargetScripts(): (r: seq<PlatformScript>)
      ensures r == PlatformScripts(SystemScripts(platform)) + PlatformScripts(configuration.userScripts)
    {
      PlatformScripts(SystemScripts(platform) + configuration.userScripts)
    }

    /** `refreshMessageHandlers()`. */
    method RefreshMessageHandlers()
      modifies this
      ensures registeredMessageHandlerNames == WantedHandlerNames(configuration)
      ensures controllerHandlers == RefreshedHandlers(old(controllerHandlers), old(registeredMessageHandlerNames), WantedHandlerNames(configuration))
      ensures controllerScripts == old(controllerScripts) && client == old(client)
    {
      var wanted := WantedHandlerNames(configuration);
      ghost var registered0 := registeredMessageHandlerNames;
      ghost var controller0 := controllerHandlers;
      var todo := wanted;
      while todo != {}
        invariant todo <= wanted
        invariant registeredMessageHandlerNames == registered0 + (wanted - todo)
        invariant controllerHandlers == controller0 + ((wanted - todo) - registered0)
        invariant controllerScripts == old(controllerScripts) && client == old(client)
        decreases todo
      {
        var name :| name in todo;
        todo := todo - {name};
        if name in registeredMessageHandlerNames { continue; }
        // the web view may be reused, so drop any stale handler of that name first
        controllerHandlers := controllerHandlers - {name};
        controllerHandlers := controllerHandlers + {name};
        registeredMessageHandlerNames := registeredMessageHandlerNames + {name};
      }
      var missing := registeredMessageHandlerNames - wanted;
      ghost var missing0 := missing;
      while missing != {}
        invariant missing <= missing0
        invariant registeredMessageHandlerNames == (registered0 + wanted) - (missing0 - missing)
        invariant controllerHandlers == (controller0 + (wanted - registered0)) - (missing0 - missing)
        invariant controllerScripts == old(controllerScripts) && client == old(client)
        decreases missing
      {
        var name :| name in missing;
        missing := missing - {name};
        controllerHandlers := controllerHandlers - {name};
        registeredMessageHandlerNames := registeredMessageHandlerNames - {name};
      }
    }

    /**
     * `updateUserScripts()`. The source compares both script lists sorted by
     * source text; the model compares them as multisets.
     */
    method UpdateUserScripts()
      modifies this
      ensures controllerScripts == UpdatedScripts(old(controllerScripts), TargetScripts())
      ensures registeredMessageHandlerNames == old(registeredMessageHandlerNames)
      ensures controllerHandlers == old(controllerHandlers) && client == old(client)
    {
      var all := TargetScripts();
      if multiset(controllerScripts) != multiset(all) {
        ReplaceAllScripts(all);
      }
    }

    /** `removeAllUserScripts()` followed by `addUserScript` for each script, in order. */
    method ReplaceAllScripts(all: seq<PlatformScript>)
      modifies this
      ensures controllerScripts == all
      ensures registeredMessageHandlerNames == old(registeredMessageHandlerNames)
      ensures controllerHandlers == old(controllerHandlers) && client == old(client)
    {
      controllerScripts := [];
      for i := 0 to |all|
        invariant controllerScripts == all[..i]
        invariant registeredMessageHandlerNames == old(registeredMessageHandlerNames)
        invariant controllerHandlers == old(controllerHandlers) && client == old(client)
      {
        controllerScripts := controllerScripts + [all[i]];
      }
      assert all[..|all|] == all;
    }

    /** The `engineDelegate` getter. */
    function EngineDelegate(): (r: Option<ClientRef>)
      reads this
      ensures r == EngineDelegateOf(client)
    {
      if client.Some? && !client.value.ForeignClient? then client else None
    }

    /** The `engineDelegate` setter. */
    method SetEngineDelegate(newValue: Option<ClientRef>)
      modifies this
      ensures client == AssignedClient(platform, old(client), newValue)
      ensures registeredMessageHandlerNames == old(registeredMessageHandlerNames)
      ensures controllerHandlers == old(controllerHandlers) && controllerScripts == old(controllerScripts)
    {
      if platform == Apple {
        client := newValue;
      } else {
        client := if newValue.Some? then newValue else client;
      }
    }

    /**
     * `loadHTML(_:baseURL:mimeType:)`: on WebKit the message handlers are
     * refreshed first and the page gets `about:blank` as base URL when none
     * is given; Android passes the base URL's text, or nothing.
     */
    method LoadHTML(html: string, baseURL: Option<Url>, mimeType: string) returns (action: LoadAction)
      modifies this
      ensures action == HtmlLoadAction(platform, html, baseURL, mimeType)
      ensures platform == Apple ==>
        && registeredMessageHandlerNames == WantedHandlerNames(configuration)
        && controllerHandlers == RefreshedHandlers(old(controllerHandlers), old(registeredMessageHandlerNames), WantedHandlerNames(configuration))
      ensures platform == Android ==>
        && registeredMessageHandlerNames == old(registeredMessageHandlerNames)
        && controllerHandlers == old(controllerHandlers)
      ensures controllerScripts == old(controllerScripts) && client == old(client)
    {
      if platform == Apple {
        RefreshMessageHandlers();
      }
      action := HtmlLoadAction(platform, html, baseURL, mimeType);
    }

    /**
     * `awaitPageLoaded(_:)`, with the navigation events the block's load
     * causes. It returns once the page-load delegate has resolved; while no
     * finish or failure has arrived the call is still suspended (`None`) and
     * the page-load delegate is still installed.
     */
    method AwaitPageLoaded(events: seq<NavEvent>) returns (outcome: Option<LoadResult>)
      modifies this
      ensures outcome.Some? <==> Resolution(events) != []
      ensures outcome.Some? ==> outcome.value == Resolution(events)[0]
      ensures outcome.Some? ==> client == ClientAfterAwait(platform, old(client))
      ensures outcome.None? ==> client == Some(PageLoaderRef)
      ensures registeredMessageHandlerNames == old(registeredMessageHandlerNames)
      ensures controllerHandlers == old(controllerHandlers) && controllerScripts == old(controllerScripts)
    {
      var saved := EngineDelegate();
      var loader := new PageLoadDelegate();
      SetEngineDelegate(Some(PageLoaderRef));
      loader.HandleAll(events);
      if loader.delivered == [] {
        return None;
      }
      outcome := Some(loader.delivered[0]);
      SetEngineDelegate(saved);
    }

    /**
     * `load(url:)`: the load is issued inside `awaitPageLoaded`, and `events`
     * are the navigation events it causes.
     */
    method Load(url: Url, events: seq<NavEvent>) returns (action: LoadAction, outcome: Option<LoadResult>)
      modifies this
      ensures action == EngineLoadAction(platform, url)
      ensures outcome.Some? <==> Resolution(events) != []
      ensures outcome.Some? ==> outcome.value == Resolution(events)[0] && client == ClientAfterAwait(platform, old(client))
      ensures outcome.None? ==> client == Some(PageLoaderRef)
      ensures registeredMessageHandlerNames == old(registeredMessageHandlerNames)
      ensures controllerHandlers == old(controllerHandlers) && controllerScripts == old(controllerScripts)
    {
      action := EngineLoadAction(platform, url);
      outcome := AwaitPageLoaded(events);
    }

    /** `awaitPageLoaded(_:)` as intended: the raw client is saved and put back on every exit. */
    method AwaitPageLoadedRestoring(events: seq<NavEvent>) returns (outcome: Option<LoadResult>)
      modifies this
      ensures outcome.Some? <==> Resolution(events) != []
      ensures outcome.Some? ==> outcome.value == Resolution(events)[0]
      ensures outcome.Some? ==> client == ClientAfterAwaitFixed(platform, old(client)) == old(client)
      ensures outcome.None? ==> client == Some(PageLoaderRef)
      ensures registeredMessageHandlerNames == old(registeredMessageHandlerNames)
      ensures controllerHandlers == old(controllerHandlers) && controllerScripts == old(controllerScripts)
    {
      var saved := client;
      var loader := new PageLoadDelegate();
      SetEngineDelegate(Some(PageLoaderRef));
      loader.HandleAll(events);
      if loader.delivered == [] {
        return None;
      }
      outcome := Some(loader.delivered[0]);
      client := saved;
    }
  }

  /** A load asked of the platform web view. */
  /**
   * The read access a WebKit file load grants (`allowingReadAccessTo:`): the
   * file itself, or the directory Foundation's `deletingLastPathComponent()`
   * yields for it.
   */
  datatype ReadAccess = FileItself | EnclosingDirectory

  datatype LoadAction =
    | LoadFileURL(url: Url, readAccess: ReadAccess)
    | LoadRequest(url: Url)
    | LoadUrlString(text: string)
    | LoadHTMLData(html: string, mimeType: string, baseURL: Url)
    | LoadDataWithBaseURL(baseUrl: Option<string>, html: string, mimeType: string)

  /** `URL(string: "about:blank")`. */
  const AboutBlank: Url := Url(Some("about"), None, None, ["blank"], "about:blank")

  /** `BackForwardListItem`: an entry of the web view's history. */
  datatype HistoryItem = HistoryItem(url: Url, title: Option<string>, initialURL: Url)

  predicate IsFileURL(u: Url) {
    u.scheme == Some("file")
  }

  /** The load `WebEngine.load(url:)` issues: WebKit grants a file URL read access to itself only. */
  function EngineLoadAction(platform: Platform, url: Url): (a: LoadAction)
    ensures platform == Android ==> a == LoadUrlString(url.text)
    ensures platform == Apple && IsFileURL(url) ==> a == LoadFileURL(url, FileItself)
    ensures platform == Apple && !IsFileURL(url) ==> a == LoadRequest(url)
  {
    if platform == Android then LoadUrlString(url.text)
    else if IsFileURL(url) then LoadFileURL(url, FileItself)
    else LoadRequest(url)
  }

  /** The load `loadHTML(_:baseURL:mimeType:)` issues: WebKit falls back to `about:blank`, Android passes the base URL's text. */
  function HtmlLoadAction(platform: Platform, html: string, baseURL: Option<Url>, mimeType: string): (a: LoadAction)
    ensures platform == Apple ==> a == LoadHTMLData(html, mimeType, if baseURL.Some? then baseURL.value else AboutBlank)
    ensures platform == Android ==> a == LoadDataWithBaseURL(if baseURL.Some? then Some(baseURL.value.text) else None, html, mimeType)
  {
    if platform == Android then LoadDataWithBaseURL(if baseURL.Some? then Some(baseURL.value.text) else None, html, mimeType)
    else LoadHTMLData(html, mimeType, baseURL.GetOr(AboutBlank))
  }

  // ---------------------------------------------------------------------------
  // The Android engine delegate's script injection
  // ---------------------------------------------------------------------------

  /** Stands for the JavaScript that installs the `webkit.messageHandlers` proxy on Android. */
  const MessageHandlersProxySource: string := "webkit.messageHandlers proxy script"

  /** What the Android engine delegate asks of the web view and of the client it wraps, in order. */
  datatype ClientAction = EvaluateJs(source: string) | ForwardPageStarted | ForwardPageFinished

  /** The scripts with the given injection time, in configuration order. */
  function ScriptsAt(scripts: seq<WebViewUserScript>, time: InjectionTime): (r: seq<WebViewUserScript>)
    ensures |r| <= |scripts|
  {
    if scripts == [] then []
    else if scripts[0].webKitUserScript.injectionTime == time then [scripts[0]] + ScriptsAt(scripts[1..], time)
    else ScriptsAt(scripts[1..], time)
  }

  /** The selection keeps the whole list exactly when every script has the selected injection time. */
  lemma {:induction false} ScriptsAtKeepsAllWhenUniform(scripts: seq<WebViewUserScript>, time: InjectionTime)
    ensures ScriptsAt(scripts, time) == scripts <==> forall s :: s in scripts ==> s.webKitUserScript.injectionTime == time
  {
    if scripts != [] {
      ScriptsAtKeepsAllWhenUniform(scripts[1..], time);
      assert scripts == [scripts[0]] + scripts[1..];
      if scripts[0].webKitUserScript.injectionTime != time {
        assert |ScriptsAt(scripts, time)| <= |scripts[1..]| < |scripts|;
      }
    }
  }

  /** The selection holds exactly the configured scripts with that injection time. */
  lemma {:induction false} ScriptsAtSelects(scripts: seq<WebViewUserScript>, time: InjectionTime)
    ensures forall s :: s in ScriptsAt(scripts, time) <==> s in scripts && s.webKitUserScript.injectionTime == time
  {
    if scripts != [] {
      ScriptsAtSelects(scripts[1..], time);
      assert scripts == [scripts[0]] + scripts[1..];
    }
  }

  lemma {:induction false} ScriptsAtAppend(a: seq<WebViewUserScript>, b: seq<WebViewUserScript>, time: InjectionTime)
    ensures ScriptsAt(a + b, time) == ScriptsAt(a, time) + ScriptsAt(b, time)
  {
    if a == [] {
      assert a + b == b;
    } else {
      assert (a + b)[0] == a[0];
      assert (a + b)[1..] == a[1..] + b;
      ScriptsAtAppend(a[1..], b, time);
      if a[0].webKitUserScript.injectionTime == time {
        assert [a[0]] + ScriptsAt(a[1..], time) + ScriptsAt(b, time) == [a[0]] + (ScriptsAt(a[1..], time) + ScriptsAt(b, time));
      }
    }
  }

  /** Every script runs at exactly one of the two events: the two selections split the configuration. */
  lemma {:induction false} ScriptsAtPartition(scripts: seq<WebViewUserScript>)
    ensures multiset(ScriptsAt(scripts, AtDocumentStart)) + multiset(ScriptsAt(scripts, AtDocumentEnd)) == multiset(scripts)
  {
    if scripts != [] {
      ScriptsAtPartition(scripts[1..]);
      assert scripts == [scripts[0]] + scripts[1..];
    }
  }

  /** The evaluations of a list of scripts' sources, in order. */
  function Evaluations(scripts: seq<WebViewUserScript>): (r: seq<ClientAction>)
    ensures |r| == |scripts|
  {
    if scripts == [] then [] else [EvaluateJs(scripts[0].webKitUserScript.source)] + Evaluations(scripts[1..])
  }

  lemma {:induction false} EvaluationsAppend(a: seq<WebViewUserScript>, b: seq<WebViewUserScript>)
    ensures Evaluations(a + b) == Evaluations(a) + Evaluations(b)
  {
    if a == [] {
      assert a + b == b;
    } else {
      assert (a + b)[0] == a[0];
      assert (a + b)[1..] == a[1..] + b;
      EvaluationsAppend(a[1..], b);
    }
  }

  /** One more script of the configuration adds its evaluation exactly when its injection time is the one selected. */
  lemma SelectionStep(scripts: seq<WebViewUserScript>, i: nat, time: InjectionTime)
    requires i < |scripts|
    ensures Evaluations(ScriptsAt(scripts[..i + 1], time)) ==
      Evaluations(ScriptsAt(scripts[..i], time))
      + (if scripts[i].webKitUserScript.injectionTime == time then [EvaluateJs(scripts[i].webKitUserScript.source)] else [])
  {
    var s := scripts[i];
    assert scripts[..i + 1] == scripts[..i] + [s];
    ScriptsAtAppend(scripts[..i], [s], time);
    EvaluationsAppend(ScriptsAt(scripts[..i], time), ScriptsAt([s], time));
    assert [s][1..] == [];
  }

  /** `WebEngineDelegate.onPageStarted`: the proxy (only with handlers configured), the start scripts, then the wrapped client. */
  method OnPageStarted(config: Configuration) returns (actions: seq<ClientAction>)
    ensures actions ==
      (if |config.messageHandlers| > 0 then [EvaluateJs(MessageHandlersProxySource)] else [])
      + Evaluations(ScriptsAt(config.userScripts, AtDocumentStart))
      + [ForwardPageStarted]
  {
    var prefix: seq<ClientAction> := if |config.messageHandlers| > 0 then [EvaluateJs(MessageHandlersProxySource)] else [];
    var evaluated: seq<ClientAction> := [];
    var scripts := config.userScripts;
    for i := 0 to |scripts|
      invariant evaluated == Evaluations(ScriptsAt(scripts[..i], AtDocumentStart))
    {
      SelectionStep(scripts, i, AtDocumentStart);
      if scripts[i].webKitUserScript.injectionTime == AtDocumentStart {
        evaluated := evaluated + [EvaluateJs(scripts[i].webKitUserScript.source)];
      }
    }
    assert scripts[..|scripts|] == scripts;
    actions := prefix + evaluated + [ForwardPageStarted];
  }

  /** `WebEngineDelegate.onPageFinished`: the end scripts in order, then the wrapped client. */
  method OnPageFinished(config: Configuration) returns (actions: seq<ClientAction>)
    ensures actions == Evaluations(ScriptsAt(config.userScripts, AtDocumentEnd)) + [ForwardPageFinished]
  {
    actions := [];
    var scripts := config.userScripts;
    for i := 0 to |scripts|
      invariant actions == Evaluations(ScriptsAt(scripts[..i], AtDocumentEnd))
    {
      SelectionStep(scripts, i, AtDocumentEnd);
      if scripts[i].webKitUserScript.injectionTime == AtDocumentEnd {
        actions := actions + [EvaluateJs(scripts[i].webKitUserScript.source)];
      }
    }
    assert scripts[..|scripts|] == scripts;
    actions := actions + [ForwardPageFinished];
  }
}
