# SkipWeb rules, modelled in Dafny

SkipWeb embeds a platform web view (WebKit's `WKWebView` on Apple platforms, `android.webkit.WebView` on Android) in SwiftUI. Most of it is glue. On top of that glue sit a few sequential rules, and this project models them and proves properties about them:

- **Message handlers and user scripts.** `WebEngine` keeps the names registered as script-message handlers and the installed user scripts in step with its configuration (`refreshMessageHandlers`, `updateUserScripts`).
- **Message routing.** Messages posted by page scripts are routed. Console lines get a severity, and other names go to their configured handler.
- **Page loading.** `awaitPageLoaded` swaps in a one-shot `PageLoadDelegate` and later puts the previous delegate back.
- **Android script injection.** The Android engine delegate runs the configured user scripts, selected by injection time and kept in order.
- **Navigation state.** The `WebView` coordinator turns navigation events into `WebViewState` fields. It decides navigation-action and navigation-response policies and clears the script caller's multi-target frame table.
- **Script caller.** The `WebViewScriptCaller` dispatches JavaScript evaluations, re-runs them in the frames of its table, and prunes frames that have gone away.
- **Navigator and engine creation.** The `WebViewNavigator` loads its initial content whenever it is given an engine. `makeWebEngine` and `create(from:)` build or reuse engines.
- **URL helpers.** The `URL` extension provides `normalizedHost`, `baseDomain` and `domainURL`.
- **Browser rules.** The `WebBrowser` view's rules cover the `netskip://` rewrite, history labels, the colour scheme, toolbar enablement and the view-model flags.

Project layout:

- `wrappers.dfy` holds `Option`.
- `skip_web.dfy` is module `SkipWeb`: the URL helpers.
- `web_engine.dfy` is module `Engine`: scripts, messages, delegates, the `WebEngine` class and the page-load delegate.
- `web_view.dfy` is module `View`: page state, the script caller, the navigator, the coordinator and engine creation.
- `web_browser.dfy` is module `Browser`.

Each source path has one modelled form. Code that changes objects in place (the engine, the page-load delegate, the script caller, the coordinator, the navigator, the view model) becomes Dafny classes whose methods state their complete new state. Code that only computes becomes functions and lemmas.

Several things the platform does are inputs to the model rather than part of it:

- **Platform web view.** It is reduced to what the rules observe: the controller's handler names and scripts, and the delegate that receives navigation events. It also covers the values `updatePageState` copies (`PlatformView`) and the loads asked of it (`LoadAction`).
- **JavaScript evaluation.** Its outcome is a function parameter from the target frame to the result.
- **URL parsing and assembly.** `URL(string:)` and `URLComponents.url` are function parameters.
- **Fresh values.** A `UUID` is a parameter.
- **Build branches.** `Platform` (`Apple`/`Android`) selects the `#if SKIP` branch.

Two facts about the shipped configuration shape the model. In `WebView`, `blockedHosts` is the constant empty set and `persistentWebViewID` is the constant `nil`. The model keeps both as parameters, so the general rules are proved. `View.EmptyBlockListAllowsAll` proves the consequence of the empty block list. The cache path in `makeWebEngine` is unreachable with a `nil` id, but it is modelled all the same.

## Model

| member | source | states |
|---|---|---|
| SkipWeb.MatchedPrefix | Sources/SkipWeb/SkipWeb.swift:17-20 | A match is one of the strippable labels (`www.`, `mobile.`, `m.`; only `www.` when restricted) and is a prefix of the host. No match means no strippable label starts the host. |
| SkipWeb.NormalizedHost | Sources/SkipWeb/SkipWeb.swift:10-26 | The result is absent exactly for a missing or empty host. Otherwise it is a suffix of the host, and the host itself when no strippable label starts it. The host is that label followed by the result when one does. |
| SkipWeb.PrefixesExclusive | Sources/SkipWeb/SkipWeb.swift:17 | No host starts with two different alternatives of the pattern. |
| SkipWeb.NormalizedHostRemovesPrefix | Sources/SkipWeb/SkipWeb.swift:17-25 | Normalising a strippable label followed by any host gives that host back. |
| SkipWeb.NormalizedHostStripsOneLabel | Sources/SkipWeb/SkipWeb.swift:20-22 | Only one label goes: `www.m.`+h becomes `m.`+h, and a second normalisation gives h. |
| SkipWeb.WwwOnlyKeepsMobileLabels | Sources/SkipWeb/SkipWeb.swift:17 | With `stripWWWSubdomainOnly`, a non-empty host not starting with `www.` is unchanged. |
| SkipWeb.UrlHost | Sources/SkipWeb/SkipWeb.swift:31 | `URL.host` is absent exactly when the `URLComponents` host is missing or empty. Otherwise it is that host, without the brackets when it is an IPv6 literal in brackets. |
| SkipWeb.BaseDomain | Sources/SkipWeb/SkipWeb.swift:29-39 | The result is present exactly when the host exists and contains no dot, and then it is the host. |
| SkipWeb.DomainUrl | Sources/SkipWeb/SkipWeb.swift:41-55 | Without a normalised host the URL is returned unchanged. With one, the result is the URL assembled from scheme, port and normalised host when assembly succeeds, and the original URL when it fails. |
| SkipWeb.DomainUrlKeepsSchemeAndPort | Sources/SkipWeb/SkipWeb.swift:45-51 | With a faithful assembler, `domainURL` keeps scheme and port. When there is a normalised host and assembly succeeds, its host is the normalised host. |
| Engine.MakeUserScript | Sources/SkipWeb/WebEngine.swift:682-686 | The wrapper and its platform script carry the same source, with the given injection time and domains. |
| Engine.SameUserScript | Sources/SkipWeb/WebEngine.swift:677-680 | Scripts that differ only in their platform script (injection time, frames, world) are equal, and equal scripts feed the hasher alike. |
| Engine.UserScriptHashKey | Sources/SkipWeb/WebEngine.swift:688-691 | The hasher is fed the source and the allowed domains, and nothing of the platform script. |
| Engine.UserScriptHashAgreesWithEquality | Sources/SkipWeb/WebEngine.swift:677-691 | Two user scripts are `==` exactly when their hash inputs (source, allowed domains) agree. |
| Engine.PlatformScripts | Sources/SkipWeb/WebEngine.swift:191 | The platform scripts of a list are its elements' `webKitUserScript`s, in order. |
| Engine.SystemScripts | Sources/SkipWeb/WebEngine.swift:694-722 | WebKit has one system script, the console bridge: injected at document start, main frame only, page world, no domain restriction. Android has none. |
| Engine.AsStringDictionary | Sources/SkipWeb/WebEngine.swift:208 | The cast to `[String: String]` succeeds exactly for an object whose values are all strings, and keeps keys and values. |
| Engine.SameMessage | Sources/SkipWeb/WebEngine.swift:576-579 | Two messages that differ only in their body are equal, and equal messages share their identifier. |
| Engine.ConsoleSeverity | Sources/SkipWeb/WebEngine.swift:214-227 | "debug" gives debug; "info" and "log" give info; "warn" gives warning; "error" and every unknown level give error. Each holds in both directions. |
| Engine.ReceiveMessage | Sources/SkipWeb/WebEngine.swift:206-235 | `skipConsoleLog` messages become a console line or are rejected: a console line has level defaulting to "log", content defaulting to "", and its severity. A message is rejected exactly when its body is not a string dictionary. Other names are dispatched exactly when a handler is configured, with frame, name, body and the fresh id. |
| Engine.ConsoleDefaults | Sources/SkipWeb/WebEngine.swift:212-213 | A console body of string fields without `level` and `content` gives an info line "log" with empty content. |
| Engine.ConsoleRouteShadowsConfiguredHandler | Sources/SkipWeb/WebEngine.swift:207-230 | A handler configured under `skipConsoleLog` never receives a message. |
| Engine.EngineDelegateOf | Sources/SkipWeb/WebEngine.swift:242-248 | The getter yields the current client exactly when it is an engine delegate. |
| Engine.AssignedClient | Sources/SkipWeb/WebEngine.swift:250-256 | A given delegate is installed. With no delegate, WebKit clears the client and Android keeps the current one. |
| Engine.ClientAfterAwait | Sources/SkipWeb/WebEngine.swift:143-145 | As written, on WebKit the client after the call is the engine delegate seen before it, or none. On Android it is the prior client when that was an engine delegate, otherwise the page-load delegate. |
| Engine.AppleAwaitRestoresEngineDelegate | Sources/SkipWeb/WebEngine.swift:143-145 | On WebKit, the engine delegate visible after `awaitPageLoaded` is the one visible before it. |
| Engine.AwaitRestoresEngineDelegateClient | Sources/SkipWeb/WebEngine.swift:143-145 | When the client was an engine delegate, both platforms restore it exactly. |
| Engine.AwaitLosesForeignClient | Sources/SkipWeb/WebEngine.swift:144-145 | As written, a client that is not an engine delegate is not restored. WebKit ends with no delegate, and Android keeps the page-load delegate (also when there was no client). |
| Engine.ClientAfterAwaitFixed | Sources/SkipWeb/WebEngine.swift:143-145 | The corrected restore yields the same engine delegate as before the call. |
| Engine.FixedAwaitKeepsForeignClient | Sources/SkipWeb/WebEngine.swift:143-145 | The corrected restore puts back a client that is not an engine delegate, and restores no client when there was none. The written restore does neither (`Engine.AwaitLosesForeignClient`). |
| Engine.FixedAwaitAgreesOnEngineDelegates | Sources/SkipWeb/WebEngine.swift:143-145 | The corrected and the written restore agree whenever the prior client was an engine delegate. |
| Engine.Resolution | Sources/SkipWeb/WebEngine.swift:424-466 | An event trace resolves the callback at most once. |
| Engine.ResolutionIsFirstTerminal | Sources/SkipWeb/WebEngine.swift:438-464 | The callback fires exactly when some finish or fail event occurs. Its result is that of the first such event, with no earlier one. |
| Engine.ResolutionIgnoresLaterEvents | Sources/SkipWeb/WebEngine.swift:445-461 | Once resolved, further events change nothing. |
| Engine.ResolutionExtend | Sources/SkipWeb/WebEngine.swift:443-464 | Before resolution, one more event resolves the callback exactly when it is a finish or a failure, with its result. |
| Engine.ProvisionalFailureNeverResolves | Sources/SkipWeb/WebEngine.swift:424-466 | As written, a trace of provisional failures and other non-terminal events never resolves the callback. |
| Engine.WithProvisionalFailures | Sources/SkipWeb/WebEngine.swift:452-464 | A delegate that also overrides `didFailProvisionalNavigation` sees each provisional failure as a failure with the same error, and every other event unchanged. |
| Engine.ProvisionalFailureResolvesWhenHandled | Sources/SkipWeb/WebEngine.swift:452-464 | With provisional failures handled, a trace resolves exactly when it has a finish or any failure. A leading provisional failure resolves to that failure. |
| Engine.PageLoadDelegate.constructor | Sources/SkipWeb/WebEngine.swift:426-433 | Starts with `callbackInvoked` false and nothing delivered. |
| Engine.PageLoadDelegate.DidFinish | Sources/SkipWeb/WebEngine.swift:436-448 | Delivers success only if nothing was delivered before, and sets `callbackInvoked`. |
| Engine.PageLoadDelegate.DidFail | Sources/SkipWeb/WebEngine.swift:452-464 | Delivers the failure only if nothing was delivered before, and sets `callbackInvoked`. |
| Engine.PageLoadDelegate.HandleAll | Sources/SkipWeb/WebEngine.swift:424-466 | After any event trace, the delivered results are the trace's resolution: at most one, from the first terminal event. |
| Engine.WantedHandlerNames | Sources/SkipWeb/WebEngine.swift:164-173 | The wanted names are `skipConsoleLog` and the configured handler names, and nothing else. |
| Engine.RefreshedHandlers | Sources/SkipWeb/WebEngine.swift:171-183 | Wanted names not yet registered are added. Registered names no longer wanted are removed. A name that is both registered and wanted, or neither, keeps its controller status. |
| Engine.RefreshIsIdempotent | Sources/SkipWeb/WebEngine.swift:171-185 | When the registered names are already the wanted ones, refreshing leaves the controller unchanged. |
| Engine.RefreshInstallsWanted | Sources/SkipWeb/WebEngine.swift:173-180 | When every registered name is in the controller, refreshing installs every wanted name. A reused engine breaks that condition (`View.ReusedEngineKeepsHandlersRemoved`). |
| Engine.UpdatedScripts | Sources/SkipWeb/WebEngine.swift:188-197 | After updating, the installed scripts are the target scripts, compared as a multiset. |
| Engine.UpdateScriptsIsIdempotent | Sources/SkipWeb/WebEngine.swift:191 | Updating twice gives the same result as updating once. |
| Engine.WebEngine.constructor | Sources/SkipWeb/WebEngine.swift:39-48 | A given web view is adopted as it is, otherwise a fresh one is made. No names are registered. |
| Engine.WebEngine.TargetScripts | Sources/SkipWeb/WebEngine.swift:189-191 | The target is the platform scripts of the system scripts followed by those of the configured ones, in order. |
| Engine.WebEngine.RefreshMessageHandlers | Sources/SkipWeb/WebEngine.swift:171-185 | Registered names become the wanted names. The controller gains the wanted names not yet registered and loses the registered names no longer wanted. Scripts and delegate are unchanged. |
| Engine.WebEngine.UpdateUserScripts | Sources/SkipWeb/WebEngine.swift:188-197 | The installed scripts are left alone when they already match the target. Otherwise they are replaced by the target, in order. Nothing else changes. |
| Engine.WebEngine.ReplaceAllScripts | Sources/SkipWeb/WebEngine.swift:192-195 | After removing all scripts and adding each target script in turn, the controller holds exactly the target, in order. Handlers and delegate are unchanged. |
| Engine.WebEngine.EngineDelegate | Sources/SkipWeb/WebEngine.swift:242-248 | The getter returns the current client exactly when it is an engine delegate. |
| Engine.WebEngine.SetEngineDelegate | Sources/SkipWeb/WebEngine.swift:250-256 | The client becomes the assigned one per platform; handlers and scripts are unchanged. |
| Engine.WebEngine.LoadHTML | Sources/SkipWeb/WebEngine.swift:81-98 | Issues the platform's HTML load. WebKit first refreshes message handlers and uses `about:blank` as the default base; Android passes the base URL's text and leaves handlers alone. |
| Engine.WebEngine.Load | Sources/SkipWeb/WebEngine.swift:101-115 | Issues the engine's URL load inside `awaitPageLoaded`. The call returns the first terminal event's result and restores the delegate as `awaitPageLoaded` does. |
| Engine.WebEngine.AwaitPageLoaded | Sources/SkipWeb/WebEngine.swift:143-159 | As written: the call returns exactly when the trace resolves, with the first terminal result. The client is then the one the getter-based save and restore gives; while the call is suspended, the page-load delegate stays installed. |
| Engine.WebEngine.AwaitPageLoadedRestoring | Sources/SkipWeb/WebEngine.swift:143-159 | Corrected: same result, and the client after return is exactly the one before the call. |
| Engine.EngineLoadAction | Sources/SkipWeb/WebEngine.swift:104-113 | Android loads the URL text. WebKit loads a file URL with read access to the file itself, and any other URL as a request. |
| Engine.ScriptsAt | Sources/SkipWeb/WebEngine.swift:329-330 | The selection is no longer than the configured list. |
| Engine.ScriptsAtKeepsAllWhenUniform | Sources/SkipWeb/WebEngine.swift:329-330 | The selection keeps the whole list exactly when every configured script has the selected injection time. |
| Engine.HtmlLoadAction | Sources/SkipWeb/WebEngine.swift:85-96 | WebKit loads the data with the base URL or `about:blank`; Android passes the base URL's text or nothing. |
| Engine.ScriptsAtSelects | Sources/SkipWeb/WebEngine.swift:329-330 | The selection holds exactly the configured scripts with the given injection time. |
| Engine.ScriptsAtAppend | Sources/SkipWeb/WebEngine.swift:329-336 | Selection distributes over concatenation, which keeps configuration order. |
| Engine.ScriptsAtPartition | Sources/SkipWeb/WebEngine.swift:298-336 | Every configured script runs at exactly one of page start or page finish. |
| Engine.Evaluations | Sources/SkipWeb/WebEngine.swift:302-305 | One evaluation per script. |
| Engine.EvaluationsAppend | Sources/SkipWeb/WebEngine.swift:329-336 | The evaluations of concatenated lists are concatenated. |
| Engine.SelectionStep | Sources/SkipWeb/WebEngine.swift:329-336 | One more configured script adds its evaluation exactly when its injection time is the selected one. |
| Engine.OnPageStarted | Sources/SkipWeb/WebEngine.swift:312-338 | The message-handler proxy comes first, and only when handlers are configured. Then come the document-start scripts in configuration order, then the forward to the wrapped client. |
| Engine.OnPageFinished | Sources/SkipWeb/WebEngine.swift:298-309 | The document-end scripts in configuration order, then the forward to the wrapped client. |
| View.FromView | Sources/SkipWeb/WebView.swift:628-638 | After `updatePageState`, the state mirrors every value the platform view reports. The provisional flag, HTML and error are kept. |
| View.AfterFinish | Sources/SkipWeb/WebView.swift:615-626 | After `didFinish`: not provisional, and `isLoading` plus every copied field equal the platform view's. |
| View.AfterCommit | Sources/SkipWeb/WebView.swift:699-707 | After `didCommit`: not provisional, and `isLoading` is the platform view's, not the `true` set first. |
| View.AfterStartProvisional | Sources/SkipWeb/WebView.swift:710-714 | After `didStartProvisionalNavigation`: provisional with progress 0, which win over the copy. Everything else is the copy. |
| View.AfterFailProvisional | Sources/SkipWeb/WebView.swift:673-681 | After `didFailProvisionalNavigation`: not loading, not provisional, the error set, and every other field unchanged (no copy from the view). |
| View.AfterFail | Sources/SkipWeb/WebView.swift:689-696 | After `didFail`: the error set, not provisional, and the copied fields are the platform view's. |
| View.AfterResponse | Sources/SkipWeb/WebView.swift:730-741 | A main-frame response for a different URL sets the page URL and clears HTML and error, with nothing else changed. Any other response changes nothing. |
| View.AfterCancel | Sources/SkipWeb/WebView.swift:719-723 | A cancelled navigation clears `isLoading` and `isProvisionallyNavigating` only. |
| View.RepeatedResponseIsStable | Sources/SkipWeb/WebView.swift:730-741 | Receiving the same response twice has the same effect as receiving it once. |
| View.WebViewState.constructor | Sources/SkipWeb/WebView.swift:74-93 | A new state is not loading, not provisional, has no URL, progress, title, HTML or error, and empty histories. |
| View.Contains | Sources/SkipWeb/WebView.swift:719 | An entry that starts the host is contained in it, and a contained entry is no longer than the host. |
| View.ContainsIffSomeSuffix | Sources/SkipWeb/WebView.swift:719 | The substring test holds exactly when some suffix of the host starts with the entry. |
| View.NavigationActionPolicy | Sources/SkipWeb/WebView.swift:717-727 | Cancel exactly when the request has a host, a block list exists, and some blocked entry occurs in the host. |
| View.EmptyBlockListAllowsAll | Sources/SkipWeb/WebView.swift:42 | With the view's empty block list every navigation is allowed. |
| View.BlockedEntryMatchesInsideHost | Sources/SkipWeb/WebView.swift:719 | A blocked entry blocks every host that ends with it, including one where it is not a whole label. |
| View.InsertionFlag | Sources/SkipWeb/WebView.swift:857-864 | The flag is false exactly when the key is present with the same request URL. |
| View.AddFrameTwice | Sources/SkipWeb/WebView.swift:857-864 | Adding the same frame again reports `false` and leaves the table as it was. |
| View.RetargetKeys | Sources/SkipWeb/WebView.swift:834-836 | The duplicated script goes to exactly the table frames not equal to the original target. |
| View.Pruned | Sources/SkipWeb/WebView.swift:832-847 | A frame is removed exactly when it was retargeted and its evaluation threw an invalid-frame-target error. The remaining entries are unchanged. |
| View.FrameBlindEvaluatorNeverPrunes | Sources/SkipWeb/WebView.swift:470-473 | With an evaluator that ignores the target frame (the WebKit work-around), the table is never pruned. |
| View.PruneIsIdempotent | Sources/SkipWeb/WebView.swift:832-847 | Pruning twice with the same outcomes gives the same result as pruning once. |
| View.WebViewScriptCaller.constructor | Sources/SkipWeb/WebView.swift:798-806 | No callers and an empty frame table. |
| View.WebViewScriptCaller.EvaluateJavaScript | Sources/SkipWeb/WebView.swift:813-819 | The script is forwarded exactly when a caller is set; otherwise nothing happens. |
| View.WebViewScriptCaller.EvaluateJavaScriptAsync | Sources/SkipWeb/WebView.swift:822-853 | Without an async caller nothing happens. A thrown evaluation is reported once as a failure. A success is reported, and the table frames are re-run and pruned only when duplication is requested. A handler that throws on success is then called again with its own error. |
| View.WebViewScriptCaller.AddMultiTargetFrame | Sources/SkipWeb/WebView.swift:857-864 | The table holds the frame at the key with every other entry unchanged. The flag is as `InsertionFlag`. |
| View.WebViewScriptCaller.RemoveAllMultiTargetFrames | Sources/SkipWeb/WebView.swift:866-869 | The table is empty afterwards. |
| View.NavigatorLoadAction | Sources/SkipWeb/WebView.swift:123-139 | Android loads the URL text. WebKit loads a file URL with read access to its enclosing directory, and any other URL as a request. |
| View.NavigatorAndEngineLoads | Sources/SkipWeb/WebView.swift:131-136 | The navigator's and the engine's URL loads differ exactly for WebKit file URLs. |
| View.InitialLoad | Sources/SkipWeb/WebView.swift:100-111 | An engine assignment loads the initial URL if set, else the initial HTML if set, else nothing; at most one load. |
| View.WebViewNavigator.constructor | Sources/SkipWeb/WebView.swift:113-116 | Keeps the initial content; no engine and no loads yet. |
| View.WebViewNavigator.AdoptInitialContent | Sources/SkipWeb/WebView.swift:59-64 | Only content that is given replaces the navigator's. |
| View.WebViewNavigator.Load | Sources/SkipWeb/WebView.swift:123-139 | Without an engine nothing is loaded; otherwise the navigator's URL load is issued. |
| View.WebViewNavigator.LoadHtml | Sources/SkipWeb/WebView.swift:118-121 | Forwards to the engine's `loadHTML`, with its handler refresh on WebKit, or does nothing without an engine. |
| View.WebViewNavigator.SetWebEngine | Sources/SkipWeb/WebView.swift:100-111 | Every assignment issues the initial load for the engine. Handlers are refreshed only when that load is WebKit HTML. |
| View.RouteAndroidMessage | Sources/SkipWeb/WebView.swift:194-204 | An Android post is dispatched exactly when a handler is configured, as a main-frame `about:blank` message with a string body. |
| View.AndroidRoutingAgreesWithWebKit | Sources/SkipWeb/WebView.swift:194-204 | Both platforms dispatch a main-frame string post to the same handler, except `skipConsoleLog`, which only Android dispatches. |
| View.WebViewCoordinator.constructor | Sources/SkipWeb/WebView.swift:529-532 | Keeps navigator, script caller and callbacks; nothing notified. |
| View.WebViewCoordinator.OpenURL | Sources/SkipWeb/WebView.swift:544-548 | The URL is loaded through the navigator. |
| View.WebViewCoordinator.UpdatePageState | Sources/SkipWeb/WebView.swift:628-641 | The state becomes `FromView` of the old state. |
| View.WebViewCoordinator.ClearFrames | Sources/SkipWeb/WebView.swift:674 | `scriptCaller?.removeAllMultiTargetFrames()`: with a caller, its frame table becomes empty and its callers are kept. |
| View.WebViewCoordinator.DidFinish | Sources/SkipWeb/WebView.swift:615-626 | The state becomes `AfterFinish`; the finished callback is notified if set. |
| View.WebViewCoordinator.DidFailProvisionalNavigation | Sources/SkipWeb/WebView.swift:673-681 | The state becomes `AfterFailProvisional`, the frame table is empty, and the failed callback is notified if set. |
| View.WebViewCoordinator.DidFail | Sources/SkipWeb/WebView.swift:689-696 | The state becomes `AfterFail` and the frame table is empty; no callback. |
| View.WebViewCoordinator.DidCommit | Sources/SkipWeb/WebView.swift:699-707 | The state becomes `AfterCommit`, the frame table is empty, and the committed callback is notified if set. |
| View.WebViewCoordinator.DidStartProvisionalNavigation | Sources/SkipWeb/WebView.swift:710-714 | The state becomes `AfterStartProvisional`, and the frame table is kept. |
| View.WebViewCoordinator.DecidePolicyForAction | Sources/SkipWeb/WebView.swift:717-727 | Returns `NavigationActionPolicy`. On cancel the state becomes `AfterCancel`, otherwise it is unchanged. |
| View.WebViewCoordinator.DecidePolicyForResponse | Sources/SkipWeb/WebView.swift:730-741 | Always allows. The state becomes `AfterResponse`, and the frame table is cleared exactly when the response resets the page. |
| View.SetupWebView | Sources/SkipWeb/WebView.swift:238-329 | The navigator gets the engine and issues the initial load. WebKit then registers exactly the wanted handler names and updates the scripts. Android installs an engine delegate. |
| View.EngineCache.constructor | Sources/SkipWeb/WebView.swift:50 | The cache starts empty. |
| View.MakeWebEngine | Sources/SkipWeb/WebView.swift:349-377 | A cached engine is reused with the configured handler names removed from its controller and no load. Otherwise a new engine is set up with exactly the wanted handlers and target scripts, loaded once, and cached under the id. |
| View.ReusedEngineKeepsHandlersRemoved | Sources/SkipWeb/WebView.swift:352-355 | A reused engine's configured handlers stay removed through a later `refreshMessageHandlers`. |
| View.InstallCallers | Sources/SkipWeb/WebView.swift:465-484 | The coordinator adopts the view's script caller if it has none, and the caller gets both evaluation closures. |
| View.Create | Sources/SkipWeb/WebView.swift:379-381 | As written, a new engine's initial content is requested twice and a cached engine's once. The coordinator becomes a delegate that is not an engine delegate. The initial content is kept. |
| View.CreateLoadingOnce | Sources/SkipWeb/WebView.swift:379-381 | Corrected: the initial content is requested exactly once in both cases. |
| View.CreateRequestsInitialURLTwice | Sources/SkipWeb/WebView.swift:239 | A WebKit view with an initial URL, made through `Create` with an empty cache, issues exactly two identical loads of that URL. |
| View.CreateAndroid | Sources/SkipWeb/WebView.swift:336-347 | Android sets up a new engine once: one initial load and an engine-delegate client. |
| Browser.ReplaceAll | Sources/SkipWeb/WebBrowser.swift:68 | An empty pattern leaves the text as it is, and a replacement as long as the pattern keeps the length. |
| Browser.ReplaceAllWithoutPattern | Sources/SkipWeb/WebBrowser.swift:68 | Text without the pattern is unchanged by the replacement. |
| Browser.ReplaceAllLeading | Sources/SkipWeb/WebBrowser.swift:68 | A leading occurrence becomes the replacement, and the rest is rewritten on its own. |
| Browser.ReplaceAllBySelf | Sources/SkipWeb/WebBrowser.swift:68 | Replacing a pattern by itself is the identity. |
| Browser.OpenedURL | Sources/SkipWeb/WebBrowser.swift:63-71 | Non-`netskip` URLs are kept. A `netskip` URL becomes the parse of its rewritten text when that parses, and stays itself when it does not. |
| Browser.OpenedNetskipLink | Sources/SkipWeb/WebBrowser.swift:66-68 | `netskip://`+rest (rest free of the pattern) opens as the parse of `https://`+rest. |
| Browser.HandleOpenURL | Sources/SkipWeb/WebBrowser.swift:63-71 | The opened URL is loaded through the navigator. |
| Browser.HistoryItemLabel | Sources/SkipWeb/WebBrowser.swift:174 | The title when present and non-empty, otherwise the URL's absolute string. |
| Browser.HistoryLabelEmptyOnlyWhenBlank | Sources/SkipWeb/WebBrowser.swift:174 | A label is empty exactly when there is no usable title and the address is empty. |
| Browser.PreferredColorScheme | Sources/SkipWeb/WebBrowser.swift:60 | "dark" gives dark and "light" gives light, both ways. Anything else, including the stored default "system" and the picker's "" tag, follows the system. |
| Browser.ToolbarFor | Sources/SkipWeb/WebBrowser.swift:85-149 | Back, tab-list and new-tab are enabled exactly when `canGoBack`. Forward is enabled exactly when `canGoForward`. Share (line 368) is enabled exactly when there is a page URL. |
| Browser.ToolbarAfterFinish | Sources/SkipWeb/WebView.swift:615-638 | After a finished navigation the toolbar follows the platform view's history and URL. |
| Browser.ToolbarIgnoresCancel | Sources/SkipWeb/WebView.swift:719-723 | A blocked navigation leaves the toolbar unchanged. |
| Browser.BrowserViewModel.constructor | Sources/SkipWeb/WebBrowser.swift:415-417 | The URL bar holds the given text, and both sheets are closed. |
| Browser.BrowserViewModel.HistoryAction | Sources/SkipWeb/WebBrowser.swift:297-300 | Only `showHistory` is set. |
| Browser.BrowserViewModel.SettingsAction | Sources/SkipWeb/WebBrowser.swift:302-305 | Only `showSettings` is set. |
| Browser.BrowserViewModel.OnPageURLChange | Sources/SkipWeb/WebBrowser.swift:183-189 | A new URL's absolute string replaces the URL bar text, and a cleared URL leaves it. |
| Browser.BrowserViewModel.Submit | Sources/SkipWeb/WebBrowser.swift:213-222 | Text that parses is loaded through the navigator; other text loads nothing. |

## Left out

- I/O and concurrency.
  - Logging is not modelled, and neither are the `Task`, continuation and coroutine plumbing.
  - `awaitPageLoaded` is modelled as a trace of navigation events. A trace that never resolves leaves the call suspended with the page-load delegate installed.
- Scrolling and visual state.
  - `scrollViewDidScroll` and the other scroll callbacks are left out; they are CGFloat arithmetic.
  - The Combine publishers that mirror title, URL, progress, colours and history into the state are left out. They are asynchronous copies of the same values `updatePageState` takes.
  - Theme and background colours, and `pageImageURL`, are left out.
- Platform and foreign calls.
  - WebKit and Android calls are reduced to `LoadAction` values or left out. This covers `reload`, `stopLoading`, `go`, `goBack`, `goForward`, `evaluate(js:)`, settings and user-agent setup, the context menu and pull-to-refresh.
  - URL parsing and assembly are function parameters.
  - The JavaScript texts of the console bridge and the message-handler proxy are stood for by placeholder strings.
- Engine.UpdatedScripts and Engine.WebEngine.UpdateUserScripts: the source sorts both lists by source text and compares them with `!=`. A `WKUserScript` is an `NSObject`, so that `!=` compares script objects by identity. The model compares script values as multisets. The two agree only when no two scripts share a source and scripts with equal values are the same object. That holds for the static console-bridge script and for the scripts a configuration builds. It fails when the adopted web view was set up from another configuration with equal scripts. The source then removes every script and installs the target in target order, while the model keeps the current list, possibly in another order.
- UrlHost: `URL.host` is taken to be the `URLComponents` host with IPv6 brackets removed and an empty host read as none. Foundation's percent-decoding, and any other difference between the two accessors, is not modelled.
- `deletingLastPathComponent()`: the directory a WebKit file load may read is recorded as `EnclosingDirectory`. The URL Foundation computes for it is not modelled.
- View.Contains: Swift's substring test on an empty entry is taken to match every host. The block list is empty in the shipped view, so this case never arises.
- View.WebViewScriptCaller.EvaluateJavaScriptAsync: the method runs without interruption. On the `MainActor` another call can run at each `await` in the duplication loop and change the frame table. Such interleavings are not captured: the retargeted frames are those of the snapshot taken before the loop, and pruning applies to the table as it stood then.
- View.WebViewScriptCaller.EvaluateJavaScriptAsync: the argument dictionary and content world are not modelled, because the frame alone decides the outcome. `FrameInfo` equality is equality of the modelled values, not object identity.
- Android navigation callbacks.
  - The Android `WebViewClient` wrapper forwards `onPageStarted`, `onPageFinished` and `onReceivedError` to the view's callbacks, one to one. It is not modelled.
  - The `WebEngineDelegate` overrides that only log and forward are not modelled.
- `homeURL` and `homePage` are defined outside the files of this model. `WebBrowser`'s home action and first load are therefore not modelled, and neither is the `WebBrowserStore` protocol, which has no implementation here.
- Doc comment of `addMultiTargetFrame`: it says the result tells whether the frame was already added. The code returns `true` when the entry is new or its URL changed, and the model follows the code (`View.InsertionFlag`).
- Error text of `WebLoadError`, configuration defaults and the test suite are not modelled.

## Findings

| source | as written | input that shows it | evidently intended | confidence | as-written member | corrected member |
|---|---|---|---|---|---|---|
| Sources/SkipWeb/WebEngine.swift:143-145 | `awaitPageLoaded` saves the previous delegate through the typed `engineDelegate` getter (`as? WebEngineDelegate`) and restores that value. | On WebKit, a view whose navigation delegate is the `WebViewCoordinator` (WebView.swift:385) calls `load(url:)`. The getter yields `nil`, and the restore sets the navigation delegate to `nil`. On Android, when the client before the call is not an engine delegate, the restore of `nil` keeps the page-load delegate installed. | The delegate present before the call is in place again after it. | medium, not executed | Engine.WebEngine.AwaitPageLoaded, Engine.AwaitLosesForeignClient | Engine.WebEngine.AwaitPageLoadedRestoring, Engine.ClientAfterAwaitFixed |
| Sources/SkipWeb/WebView.swift:239 | `setupWebView` assigns `navigator.webEngine`, and `create(from:)` assigns it again (line 381). Each assignment runs `didSet`, which loads the initial content. | A WebKit `WebView` with an initial URL and no cached engine requests that URL twice. | The initial content is requested once. | medium, not executed | View.Create, View.CreateRequestsInitialURLTwice | View.CreateLoadingOnce |
| Sources/SkipWeb/WebEngine.swift:452-464 | On WebKit, `PageLoadDelegate` overrides `didFinish` and `didFail` but not `didFailProvisionalNavigation`. | `load(url:)` of an unreachable host on WebKit: the navigation fails before it commits, so only `didFailProvisionalNavigation` arrives. The callback is never invoked, and the call stays suspended with the page-load delegate installed. | A failure before commit resolves the load as a failure, as Android's `onReceivedError` does. | medium, not executed | Engine.ProvisionalFailureNeverResolves | Engine.ProvisionalFailureResolvesWhenHandled |
