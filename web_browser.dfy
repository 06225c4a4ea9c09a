/**
 * The decision rules of the `WebBrowser` view (WebBrowser.swift): the
 * `netskip://` rewrite of opened URLs, history-item labels, the appearance
 * setting, toolbar enablement, and the `BrowserViewModel` flags its actions
 * set. Layout, sheets and menus are not modelled.
 */
module Browser {
  import opened Wrappers
  import opened SkipWeb
  import opened Engine
  import opened View

  // ---------------------------------------------------------------------------
  // Opening URLs
  // ---------------------------------------------------------------------------

  /** `replacingOccurrences(of:with:)`: every occurrence, left to right and without overlap, is replaced. */
  function ReplaceAll(s: string, pat: string, rep: string): (r: string)
    ensures pat == [] ==> r == s
    ensures |pat| == |rep| ==> |r| == |s|
    decreases |s|
  {
    if pat == [] || |s| < |pat| then s
    else if pat <= s then rep + ReplaceAll(s[|pat|..], pat, rep)
    else [s[0]] + ReplaceAll(s[1..], pat, rep)
  }

  /** A string without the pattern is left as it is. */
  lemma {:induction false} ReplaceAllWithoutPattern(s: string, pat: string, rep: string)
    requires !Contains(s, pat)
    ensures ReplaceAll(s, pat, rep) == s
    decreases |s|
  {
    if pat == [] || |s| < |pat| {
    } else {
      assert !(pat <= s);
      ReplaceAllWithoutPattern(s[1..], pat, rep);
      assert [s[0]] + s[1..] == s;
    }
  }

  /** A leading occurrence is replaced, and the rest is rewritten on its own. */
  lemma ReplaceAllLeading(pat: string, rest: string, rep: string)
    requires pat != []
    ensures ReplaceAll(pat + rest, pat, rep) == rep + ReplaceAll(rest, pat, rep)
  {
    assert (pat + rest)[|pat|..] == rest;
  }

  /** Replacing is the identity when the replacement is the pattern itself. */
  lemma {:induction false} ReplaceAllBySelf(s: string, pat: string)
    ensures ReplaceAll(s, pat, pat) == s
    decreases |s|
  {
    if pat == [] || |s| < |pat| {
    } else if pat <= s {
      ReplaceAllBySelf(s[|pat|..], pat);
      assert pat + s[|pat|..] == s;
    } else {
      ReplaceAllBySelf(s[1..], pat);
      assert [s[0]] + s[1..] == s;
    }
  }

  const NetskipPrefix: string := "netskip://"
  const HttpsPrefix: string := "https://"

  /**
   * The URL `handleOpenURL` loads: a `netskip` URL has every `netskip://` in
   * its text turned into `https://` and is reparsed, falling back to the
   * original when the result does not parse; any other URL is kept.
   * `parse` stands for `URL(string:)`.
   */
  function OpenedURL(u: Url, parse: string -> Option<Url>): (r: Url)
    ensures u.scheme != Some("netskip") ==> r == u
    ensures u.scheme == Some("netskip") && parse(ReplaceAll(u.text, NetskipPrefix, HttpsPrefix)).Some? ==>
      Some(r) == parse(ReplaceAll(u.text, NetskipPrefix, HttpsPrefix))
    ensures u.scheme == Some("netskip") && parse(ReplaceAll(u.text, NetskipPrefix, HttpsPrefix)).None? ==> r == u
  {
    if u.scheme == Some("netskip") then parse(ReplaceAll(u.text, NetskipPrefix, HttpsPrefix)).GetOr(u) else u
  }

  /** A `netskip://` link whose remainder holds no further `netskip://` is reparsed as the same address over `https://`. */
  lemma OpenedNetskipLink(u: Url, rest: string, parse: string -> Option<Url>)
    requires u.scheme == Some("netskip") && u.text == NetskipPrefix + rest && !Contains(rest, NetskipPrefix)
    ensures OpenedURL(u, parse) == parse(HttpsPrefix + rest).GetOr(u)
  {
    ReplaceAllLeading(NetskipPrefix, rest, HttpsPrefix);
    ReplaceAllWithoutPattern(rest, NetskipPrefix, HttpsPrefix);
  }

  /** `handleOpenURL(url:)`: the chosen URL is loaded through the navigator. */
  method HandleOpenURL(navigator: WebViewNavigator, u: Url, parse: string -> Option<Url>)
    modifies navigator
    ensures navigator.webEngine == old(navigator.webEngine)
    ensures navigator.requests == old(navigator.requests)
      + (if navigator.webEngine == null then [] else [NavigatorLoadAction(navigator.webEngine.platform, OpenedURL(u, parse))])
  {
    navigator.Load(OpenedURL(u, parse));
  }

  // ---------------------------------------------------------------------------
  // Labels, appearance and toolbar
  // ---------------------------------------------------------------------------

  /** The label of a back/forward history menu item. */
  function HistoryItemLabel(item: HistoryItem): (shown: string)
    ensures item.title.Some? && item.title.value != [] ==> shown == item.title.value
    ensures item.title.None? || item.title.value == [] ==> shown == item.url.text
  {
    if item.title.Some? && item.title.value != [] then item.title.value else item.url.text
  }

  /** A label is empty only when there is nothing to show: no usable title and an empty address. */
  lemma HistoryLabelEmptyOnlyWhenBlank(item: HistoryItem)
    ensures HistoryItemLabel(item) == [] <==> (item.title.None? || item.title.value == []) && item.url.text == []
  {
  }

  datatype ColorScheme = Dark | Light

  /** `preferredColorScheme` from the stored `appearance` setting: `None` follows the system. */
  function PreferredColorScheme(appearance: string): (r: Option<ColorScheme>)
    ensures r == Some(Dark) <==> appearance == "dark"
    ensures r == Some(Light) <==> appearance == "light"
    ensures r.None? <==> appearance != "dark" && appearance != "light"
  {
    if appearance == "dark" then Some(Dark) else if appearance == "light" then Some(Light) else None
  }

  /** Which toolbar controls are enabled. */
  datatype Toolbar = Toolbar(back: bool, tabList: bool, newTab: bool, forward: bool, share: bool)

  /** Back, tab-list and new-tab follow `canGoBack`; forward follows `canGoForward`; share needs a page URL. */
  function ToolbarFor(s: PageState): (t: Toolbar)
    ensures t.back == s.canGoBack && t.tabList == s.canGoBack && t.newTab == s.canGoBack
    ensures t.forward == s.canGoForward
    ensures t.share <==> s.pageURL.Some?
  {
    Toolbar(s.canGoBack, s.canGoBack, s.canGoBack, s.canGoForward, s.pageURL.Some?)
  }

  /** After a navigation finishes, the toolbar reflects the platform view's history and URL. */
  lemma ToolbarAfterFinish(s: PageState, v: PlatformView)
    ensures ToolbarFor(AfterFinish(s, v)) == Toolbar(v.canGoBack, v.canGoBack, v.canGoBack, v.canGoForward, v.url.Some?)
  {
  }

  /** A blocked navigation leaves the toolbar as it was. */
  lemma ToolbarIgnoresCancel(s: PageState)
    ensures ToolbarFor(AfterCancel(s)) == ToolbarFor(s)
  {
  }

  // ---------------------------------------------------------------------------
  // The view model
  // ---------------------------------------------------------------------------

  /** `BrowserViewModel`: the URL bar's text and the two sheet flags. */
  class BrowserViewModel {
    var urlTextField: string
    var showSettings: bool
    var showHistory: bool

    constructor (url: string)
      ensures urlTextField == url && !showSettings && !showHistory
    {
      urlTextField := url;
      showSettings, showHistory := false, false;
    }

    /** `historyAction()`: only the history sheet is requested. */
    method HistoryAction()
      modifies this
      ensures showHistory
      ensures urlTextField == old(urlTextField) && showSettings == old(showSettings)
    {
      showHistory := true;
    }

    /** `settingsAction()`: only the settings sheet is requested. */
    method SettingsAction()
      modifies this
      ensures showSettings
      ensures urlTextField == old(urlTextField) && showHistory == old(showHistory)
    {
      showSettings := true;
    }

    /** The `pageURL` change handler: a new URL's text replaces the URL bar's; a cleared URL leaves it. */
    method OnPageURLChange(newURL: Option<Url>)
      modifies this
      ensures urlTextField == (if newURL.Some? then newURL.value.text else old(urlTextField))
      ensures showSettings == old(showSettings) && showHistory == old(showHistory)
    {
      if newURL.Some? {
        urlTextField := newURL.value.text;
      }
    }

    /** Submitting the URL bar: text that parses as a URL is loaded, anything else is ignored. */
    method Submit(navigator: WebViewNavigator, parse: string -> Option<Url>)
      modifies navigator
      ensures navigator.webEngine == old(navigator.webEngine)
      ensures parse(urlTextField).None? ==> navigator.requests == old(navigator.requests)
      ensures parse(urlTextField).Some? ==>
        navigator.requests == old(navigator.requests)
          + (if navigator.webEngine == null then [] else [NavigatorLoadAction(navigator.webEngine.platform, parse(urlTextField).value)])
    {
      var url := parse(urlTextField);
      if url.Some? {
        navigator.Load(url.value);
      }
    }
  }
}
