/**
 The split-horizon rewrite: an endpoint advertised under the public issuer is
 reached under the internal base. Both copies in the repository are here.
 */
module EndpointRewrites {
  import opened Wrappers

  /**
   `new URL(...).origin`, which depends on scheme and authority alone (sections
   3.2.2 and 6.2.2.1 of RFC 3986); None where the constructor throws.
   */
  type OriginOf = string -> Option<string>

  datatype Folded = Folded(origin: string, rest: string)

  function StripTrailingSlash(url: string): string {
    if url != "" && url[|url| - 1] == '/' then url[..|url| - 1] else url
  }

  /** `indexOf("://")`. */
  function SchemeEnd(url: string): (r: Option<nat>)
    ensures r.Some? ==> r.value + 3 <= |url| && url[r.value..r.value + 3] == "://"
  {
    if |url| < 3 then None
    else if url[..3] == "://" then Some(0)
    else match SchemeEnd(url[1..])
      case None => None
      case Some(k) => Shifted(url, k); Some(k + 1)
  }

  lemma Shifted(url: string, k: nat)
    requires k + 4 <= |url|
    ensures url[1..][k..k + 3] == url[k + 1..k + 4]
  {
  }

  predicate EndsAuthority(c: char) {
    c == '/' || c == '?' || c == '#'
  }

  /** Where the first `/`, `?` or `#` from `i` on stands. */
  function AuthorityEnd(url: string, i: nat): (r: nat)
    requires i <= |url|
    ensures i <= r <= |url|
    ensures forall k :: i <= k < r ==> !EndsAuthority(url[k])
    ensures r < |url| ==> EndsAuthority(url[r])
    decreases |url| - i
  {
    if i == |url| || EndsAuthority(url[i]) then i else AuthorityEnd(url, i + 1)
  }

  function Fold(o: OriginOf, url: string): Option<Folded> {
    match SchemeEnd(url)
    case None => None
    case Some(s) =>
      var r := AuthorityEnd(url, s + 3);
      match o(url[..r])
      case None => None
      case Some(origin) => Some(Folded(origin, url[r..]))
  }

  /** `originCaseFold`: the scan for the end of the authority. */
  method OriginCaseFold(o: OriginOf, url: string) returns (r: Option<Folded>)
    ensures r == Fold(o, url)
  {
    var schemeSep := SchemeEnd(url);
    if schemeSep.None? {
      return None;
    }
    var restStart := schemeSep.value + 3;
    while restStart < |url| && !EndsAuthority(url[restStart])
      invariant schemeSep.value + 3 <= restStart <= |url|
      invariant AuthorityEnd(url, restStart) == AuthorityEnd(url, schemeSep.value + 3)
    {
      restStart := restStart + 1;
    }
    var origin := o(url[..restStart]);
    r := if origin.None? then None else Some(Folded(origin.value, url[restStart..]));
  }

  const OPAQUE := "null"

  /** `rewriteBackChannelEndpoint`; an absent discovery URL is the empty one. */
  function RewriteEndpoint(o: OriginOf, endpoint: string, issuerUrl: string, discoveryUrl: string): string {
    if discoveryUrl == "" then endpoint
    else
      var publicBase, internalBase := StripTrailingSlash(issuerUrl), StripTrailingSlash(discoveryUrl);
      if publicBase == internalBase then endpoint
      else
        var ep, base := Fold(o, endpoint), Fold(o, publicBase);
        if ep.None? || base.None? then if endpoint == publicBase then internalBase else endpoint
        else if ep.value.origin == OPAQUE || base.value.origin == OPAQUE then endpoint
        else if ep.value.origin != base.value.origin then endpoint
        else if ep.value.rest == base.value.rest then internalBase
        else if base.value.rest + "/" <= ep.value.rest then internalBase + ep.value.rest[|base.value.rest|..]
        else endpoint
  }

  /** `rewriteJwksUri`. */
  function RewriteJwksUri(o: OriginOf, jwksUri: string, issuerUrl: string, discoveryUrl: string): string {
    var publicBase, fetchBase := StripTrailingSlash(issuerUrl), StripTrailingSlash(discoveryUrl);
    if publicBase == fetchBase then jwksUri
    else match (Fold(o, jwksUri), Fold(o, publicBase))
      case (Some(uri), Some(base)) =>
        if uri.origin == OPAQUE || base.origin == OPAQUE || uri.origin != base.origin then jwksUri
        else if uri.rest == base.rest then fetchBase
        else if base.rest + "/" <= uri.rest then fetchBase + uri.rest[|base.rest|..]
        else jwksUri
      case _ => if jwksUri == publicBase then fetchBase else jwksUri
  }

  /** The two copies agree wherever a discovery URL is given. */
  lemma CopiesAgree(o: OriginOf, url: string, issuerUrl: string, discoveryUrl: string)
    requires discoveryUrl != ""
    ensures RewriteEndpoint(o, url, issuerUrl, discoveryUrl) == RewriteJwksUri(o, url, issuerUrl, discoveryUrl)
  {
  }

  /** `endpoint` lies under `base`: same origin, and the path goes on after a whole segment. */
  predicate Under(o: OriginOf, endpoint: string, base: string, suffix: string) {
    && Fold(o, endpoint).Some? && Fold(o, base).Some?
    && Fold(o, base).value.origin == Fold(o, endpoint).value.origin != "null"
    && Fold(o, endpoint).value.rest == Fold(o, base).value.rest + suffix
    && (suffix != "" ==> suffix[0] == '/')
  }

  /** What is under the public base moves to the internal one with its suffix. */
  lemma RewritesWhatIsUnder(o: OriginOf, endpoint: string, issuerUrl: string, discoveryUrl: string, suffix: string)
    requires discoveryUrl != "" && StripTrailingSlash(issuerUrl) != StripTrailingSlash(discoveryUrl)
    requires Under(o, endpoint, StripTrailingSlash(issuerUrl), suffix)
    ensures RewriteEndpoint(o, endpoint, issuerUrl, discoveryUrl) == StripTrailingSlash(discoveryUrl) + suffix
  {
    hide Fold, StripTrailingSlash;
    var b, e := Fold(o, StripTrailingSlash(issuerUrl)).value.rest, Fold(o, endpoint).value.rest;
    assert e[|b|..] == suffix;
    if suffix != "" {
      assert suffix == ['/'] + suffix[1..];
      assert b + "/" == e[..|b| + 1];
    }
  }

  /** No other URL with an origin moves: matching stops at segment borders. */
  lemma RewritesOnlyWhatIsUnder(o: OriginOf, endpoint: string, issuerUrl: string, discoveryUrl: string)
    requires Fold(o, endpoint).Some? && Fold(o, StripTrailingSlash(issuerUrl)).Some?
    requires RewriteEndpoint(o, endpoint, issuerUrl, discoveryUrl) != endpoint
    ensures exists suffix :: Under(o, endpoint, StripTrailingSlash(issuerUrl), suffix)
  {
    hide Fold, StripTrailingSlash;
    var b, e := Fold(o, StripTrailingSlash(issuerUrl)).value.rest, Fold(o, endpoint).value.rest;
    assert b <= e;
    assert Under(o, endpoint, StripTrailingSlash(issuerUrl), e[|b|..]);
  }

  lemma {:induction false} SchemeEndOfPrefix(url: string, more: string)
    requires SchemeEnd(url).Some?
    ensures SchemeEnd(url + more) == SchemeEnd(url)
  {
    assert (url + more)[..3] == url[..3];
    if url[..3] != "://" {
      assert (url + more)[1..] == url[1..] + more;
      SchemeEndOfPrefix(url[1..], more);
    }
  }

  lemma AuthorityEndUnique(url: string, i: nat, r: nat)
    requires i <= r <= |url|
    requires forall k :: i <= k < r ==> !EndsAuthority(url[k])
    requires r < |url| ==> EndsAuthority(url[r])
    ensures AuthorityEnd(url, i) == r
    decreases r - i
  {
    if i < r {
      AuthorityEndUnique(url, i + 1, r);
    }
  }

  /** Going on after a base with a new segment changes neither its origin nor its path. */
  lemma FoldExtends(o: OriginOf, base: string, suffix: string)
    requires Fold(o, base).Some? && (suffix != "" ==> suffix[0] == '/')
    ensures Fold(o, base + suffix) == Some(Folded(Fold(o, base).value.origin, Fold(o, base).value.rest + suffix))
  {
    var s := SchemeEnd(base).value;
    var r := AuthorityEnd(base, s + 3);
    SchemeEndOfPrefix(base, suffix);
    AuthorityEndUnique(base + suffix, s + 3, r);
    Prefixes(base, suffix, r);
  }

  lemma Prefixes(a: string, b: string, r: nat)
    requires r <= |a|
    ensures (a + b)[..r] == a[..r] && (a + b)[r..] == a[r..] + b
  {
  }

  /**
   Swapping the bases inverts the rewrite, up to how the origin was spelled: the
   URL that comes back has the endpoint's origin and its exact path and query.
   */
  lemma RewriteInverts(o: OriginOf, endpoint: string, issuerUrl: string, discoveryUrl: string, suffix: string)
    requires Under(o, endpoint, StripTrailingSlash(issuerUrl), suffix)
    requires Fold(o, StripTrailingSlash(discoveryUrl)).Some? && Fold(o, StripTrailingSlash(discoveryUrl)).value.origin != "null"
    requires StripTrailingSlash(issuerUrl) != StripTrailingSlash(discoveryUrl)
    ensures var there := RewriteEndpoint(o, endpoint, issuerUrl, discoveryUrl);
            var back := RewriteEndpoint(o, there, discoveryUrl, issuerUrl);
            Fold(o, back) == Fold(o, endpoint) && back == StripTrailingSlash(issuerUrl) + suffix
  {
    var publicBase, internalBase := StripTrailingSlash(issuerUrl), StripTrailingSlash(discoveryUrl);
    assert publicBase != "" && internalBase != "";
    FoldExtends(o, publicBase, suffix);
    FoldExtends(o, internalBase, suffix);
    RewritesWhatIsUnder(o, endpoint, issuerUrl, discoveryUrl, suffix);
    RewritesWhatIsUnder(o, internalBase + suffix, discoveryUrl, issuerUrl, suffix);
  }

  // ---------- URLs as they are written ----------

  /** A base as configured: with a trailing slash or without. */
  function Configured(base: string, slash: bool): string {
    if slash then base + "/" else base
  }

  /**
   One trailing slash on either configured URL makes no difference: what lies
   under the public base moves to the internal one.
   */
  lemma SlashesDoNotMatter(o: OriginOf, endpoint: string, publicBase: string, internalBase: string, suffix: string, p: bool, i: bool)
    requires internalBase != "" && publicBase != internalBase
    requires publicBase != "" ==> publicBase[|publicBase| - 1] != '/'
    requires internalBase[|internalBase| - 1] != '/'
    requires Under(o, endpoint, publicBase, suffix)
    ensures RewriteEndpoint(o, endpoint, Configured(publicBase, p), Configured(internalBase, i)) == internalBase + suffix
  {
    hide Fold, RewriteEndpoint;
    assert (publicBase + "/")[..|publicBase|] == publicBase;
    assert (internalBase + "/")[..|internalBase|] == internalBase;
    RewritesWhatIsUnder(o, endpoint, Configured(publicBase, p), Configured(internalBase, i), suffix);
  }

  lemma {:induction false} SchemeEndIs(scheme: string, rest: string)
    requires ':' !in scheme
    ensures SchemeEnd(scheme + "://" + rest) == Some(|scheme|)
  {
    var url := scheme + "://" + rest;
    if scheme == "" {
      assert url[..3] == "://";
    } else {
      assert url[0] == scheme[0] && scheme[0] in scheme;
      assert url[..3][0] != ':';
      assert url[1..] == scheme[1..] + "://" + rest;
      SchemeEndIs(scheme[1..], rest);
    }
  }

  /** The origin is taken of scheme and authority; path, query and fragment stay as they are written. */
  lemma FoldSplits(o: OriginOf, scheme: string, authority: string, rest: string)
    requires ':' !in scheme && '/' !in authority && '?' !in authority && '#' !in authority
    requires rest == "" || rest[0] == '/' || rest[0] == '?' || rest[0] == '#'
    ensures var head := scheme + "://" + authority;
            Fold(o, head + rest) == if o(head).None? then None else Some(Folded(o(head).value, rest))
  {
    var head := scheme + "://" + authority;
    var url := head + rest;
    assert url == scheme + "://" + (authority + rest);
    SchemeEndIs(scheme, authority + rest);
    forall k | |scheme| + 3 <= k < |head| ensures !EndsAuthority(url[k]) {
      assert url[k] == authority[k - |scheme| - 3] && url[k] in authority;
    }
    AuthorityEndUnique(url, |scheme| + 3, |head|);
    Prefixes(head, rest, |head|);
    assert head[..|head|] == head && head[|head|..] + rest == rest;
  }
}
