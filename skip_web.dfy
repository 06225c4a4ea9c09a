/**
 * The `URL` extension of SkipWeb: host normalisation (`normalizedHost`),
 * the base domain of a bare host name (`baseDomain`) and the URL reduced to
 * scheme, port and normalised host (`domainURL`).
 *
 * Parsing a URL is Foundation's business and is not modelled: a `Url` is
 * the parse as given (scheme, host as `URLComponents` reports it, port,
 * path components) together with its absolute string.
 */
module SkipWeb {
  import opened Wrappers

  datatype Url = Url(
    scheme: Option<string>,
    host: Option<string>,   // as URLComponents reports it: IPv6 literals keep their brackets
    port: Option<int>,
    path: seq<string>,      // path components
    text: string            // absoluteString
  )

  /** The leading labels `normalizedHost` may remove: `^(www|mobile|m)\.`, or `^(www)\.` alone. */
  function StrippablePrefixes(wwwOnly: bool): set<string> {
    if wwwOnly then {"www."} else {"www.", "mobile.", "m."}
  }

  /**
   * The text the anchored pattern matches at the start of `host`, if any.
   * The three alternatives exclude each other, so at most one applies.
   */
  function MatchedPrefix(host: string, wwwOnly: bool): (p: Option<string>)
    ensures p.Some? ==> p.value in StrippablePrefixes(wwwOnly) && p.value <= host
    ensures p.None? ==> forall q :: q in StrippablePrefixes(wwwOnly) ==> !(q <= host)
  {
    if "www." <= host then Some("www.")
    else if !wwwOnly && "mobile." <= host then Some("mobile.")
    else if !wwwOnly && "m." <= host then Some("m.")
    else None
  }

  /**
   * `URL.normalizedHost(stripWWWSubdomainOnly:)`: no result for a missing or
   * empty host; otherwise the host with one leading strippable label removed.
   */
  function NormalizedHost(host: Option<string>, wwwOnly: bool): (r: Option<string>)
    ensures r.None? <==> host.None? || host.value == ""
    ensures r.Some? ==> |r.value| <= |host.value| && r.value == host.value[|host.value| - |r.value|..]
    ensures r.Some? && (forall q :: q in StrippablePrefixes(wwwOnly) ==> !(q <= host.value)) ==> r == host
    ensures r.Some? ==> forall q :: q in StrippablePrefixes(wwwOnly) && q <= host.value ==> host.value == q + r.value
  {
    if host.None? || host.value == "" then None
    else
      match MatchedPrefix(host.value, wwwOnly)
      case Some(p) =>
        PrefixesExclusive(host.value, p, wwwOnly);
        Some(host.value[|p|..])
      case None => host
  }

  /** No host starts with two different strippable labels. */
  lemma PrefixesExclusive(h: string, p: string, wwwOnly: bool)
    requires p in StrippablePrefixes(wwwOnly) && p <= h
    ensures forall q :: q in StrippablePrefixes(wwwOnly) && q <= h ==> q == p
  {
    forall q | q in StrippablePrefixes(wwwOnly) && q <= h
      ensures q == p
    {
      assert q[0] == h[0] == p[0] && q[1] == h[1] == p[1];
    }
  }

  /** Prefixing a strippable label to any host and normalising gives that host back. */
  lemma NormalizedHostRemovesPrefix(p: string, h: string, wwwOnly: bool)
    requires p in StrippablePrefixes(wwwOnly)
    ensures NormalizedHost(Some(p + h), wwwOnly) == Some(h)
  {
    assert p <= p + h;
    assert (p + h)[|p|..] == h;
  }

  /**
   * Only one label goes: `www.m.` followed by `h` becomes `m.` followed by
   * `h`, and normalising that again removes `m.` too, so normalising is not
   * idempotent.
   */
  lemma NormalizedHostStripsOneLabel(h: string)
    ensures NormalizedHost(Some("www.m." + h), false) == Some("m." + h)
    ensures NormalizedHost(NormalizedHost(Some("www.m." + h), false), false) == Some(h)
  {
    assert "www.m." + h == "www." + ("m." + h);
    NormalizedHostRemovesPrefix("www.", "m." + h, false);
    NormalizedHostRemovesPrefix("m.", h, false);
  }

  /** With `stripWWWSubdomainOnly`, `mobile.` and `m.` stay. */
  lemma WwwOnlyKeepsMobileLabels(h: string)
    requires h != "" && !("www." <= h)
    ensures NormalizedHost(Some(h), true) == Some(h)
  {
  }

  /** An IPv6 literal as `URLComponents` reports it: enclosed in brackets. */
  predicate Bracketed(h: string) {
    |h| >= 2 && h[0] == '[' && h[|h| - 1] == ']'
  }

  /**
   * `URL.host`, taken from the `URLComponents` host: an empty host (an empty
   * authority, as in `file:///x`) counts as none, and the brackets of an IPv6
   * literal are removed.
   */
  function UrlHost(u: Url): (r: Option<string>)
    ensures r.None? <==> u.host.None? || u.host.value == ""
    ensures r.Some? && Bracketed(u.host.value) ==> u.host.value == "[" + r.value + "]"
    ensures r.Some? && !Bracketed(u.host.value) ==> r.value == u.host.value
  {
    match u.host
    case None => None
    case Some(h) =>
      if h == "" then None
      else if Bracketed(h) then Some(h[1..|h| - 1])
      else Some(h)
  }

  /** `URL.baseDomain`: the host when it is a bare name without a dot, nothing otherwise. */
  function BaseDomain(u: Url): (r: Option<string>)
    ensures r.Some? <==> UrlHost(u).Some? && '.' !in UrlHost(u).value
    ensures r.Some? ==> r == UrlHost(u)
  {
    match UrlHost(u)
    case None => None
    case Some(h) => if '.' !in h then Some(h) else None
  }

  /** What `domainURL` puts into a fresh `URLComponents`. */
  datatype UrlParts = UrlParts(scheme: Option<string>, port: Option<int>, host: string)

  /**
   * `URL.domainURL`. `build` stands for `URLComponents.url`, Foundation's
   * assembly of a URL from its parts, which may fail.
   */
  function DomainUrl(u: Url, build: UrlParts -> Option<Url>): (r: Url)
    ensures NormalizedHost(u.host, false).None? ==> r == u
    ensures NormalizedHost(u.host, false).Some? ==>
      var parts := UrlParts(u.scheme, u.port, NormalizedHost(u.host, false).value);
      (build(parts).Some? ==> r == build(parts).value) && (build(parts).None? ==> r == u)
  {
    match NormalizedHost(u.host, false)
    case None => u
    case Some(h) => build(UrlParts(u.scheme, u.port, h)).GetOr(u)
  }

  /** A builder that, when it succeeds, yields a URL with exactly the parts it was given. */
  ghost predicate BuildsFaithfully(build: UrlParts -> Option<Url>) {
    forall p :: build(p).Some? ==>
      build(p).value.scheme == p.scheme && build(p).value.port == p.port && build(p).value.host == Some(p.host)
  }

  /**
   * With a faithful builder, `domainURL` keeps scheme and port, and its host
   * is the normalised host whenever there is one and the assembly succeeds.
   */
  lemma DomainUrlKeepsSchemeAndPort(u: Url, build: UrlParts -> Option<Url>)
    requires BuildsFaithfully(build)
    ensures DomainUrl(u, build).scheme == u.scheme && DomainUrl(u, build).port == u.port
    ensures (NormalizedHost(u.host, false).Some?
             && build(UrlParts(u.scheme, u.port, NormalizedHost(u.host, false).value)).Some?) ==>
      DomainUrl(u, build).host == NormalizedHost(u.host, false)
  {
    var n := NormalizedHost(u.host, false);
    if n.Some? {
      var p := UrlParts(u.scheme, u.port, n.value);
      if build(p).Some? {
        assert DomainUrl(u, build) == build(p).value;
      }
    }
  }
}
