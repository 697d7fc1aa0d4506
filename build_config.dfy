/**
 * The build configuration's image hosts (next.config.js): the Strapi base URL read from the
 * environment, the remote-image pattern derived from it, and the list of allowed remote
 * patterns, four fixed ones followed by the derived one when there is one.
 */
module BuildConfig {
  import opened Wrappers
  import opened Urls
  import ApiUrl

  // ---- normalizeStrapiApiUrl, getStrapiApiBaseUrlFromEnv ----

  /** This file's `normalizeStrapiApiUrl(value)`: an unset value reads as `""`. */
  function NormalizeConfigUrl(value: Option<string>): (r: string)
    ensures value.None? ==> r == ""
    ensures value.Some? ==> r == ApiUrl.NormalizeApiUrl(value.value)
  {
    ApiUrl.NormalizeApiUrl(value.GetOr(""))
  }

  /** The variables `getStrapiApiBaseUrlFromEnv` reads. */
  datatype BuildEnv = BuildEnv(
    strapiApiUrl: Option<string>,
    publicStrapiApiUrl: Option<string>,
    publicStrapiBaseUrl: Option<string>,
    publicStrapiUrl: Option<string>)

  /** The candidates in the order they are tried. */
  function EnvCandidates(env: BuildEnv): (r: seq<Option<string>>)
    ensures |r| == 4
  {
    [env.strapiApiUrl, env.publicStrapiApiUrl, env.publicStrapiBaseUrl, env.publicStrapiUrl]
  }

  /** Whether a candidate survives `filter(isString).map(normalize).filter(Boolean)`. */
  predicate Usable(v: Option<string>) {
    v.Some? && ApiUrl.NormalizeApiUrl(v.value) != ""
  }

  /**
   * `getStrapiApiBaseUrlFromEnv()`: the first usable candidate, normalized, else `""`; there is
   * no built-in fallback here.
   */
  function BaseUrlFromEnv(env: BuildEnv): (r: string)
    ensures r == "" <==> forall k :: 0 <= k < 4 ==> !Usable(EnvCandidates(env)[k])
  {
    ApiUrl.FirstNormalized(EnvCandidates(env), ApiUrl.NormalizeApiUrl).GetOr("")
  }

  /** The candidate that decides: the normalization of the first usable one. */
  lemma BaseUrlFromEnvIsFirst(env: BuildEnv, k: nat)
    requires k < 4 && Usable(EnvCandidates(env)[k])
    requires forall j :: 0 <= j < k ==> !Usable(EnvCandidates(env)[j])
    ensures BaseUrlFromEnv(env) == ApiUrl.NormalizeApiUrl(EnvCandidates(env)[k].value)
  {
    ApiUrl.FirstNormalizedIsFirst(EnvCandidates(env), ApiUrl.NormalizeApiUrl, k);
  }

  // ---- getRemotePatternFromUrl ----

  /** An entry of `images.remotePatterns`; `port` is left out when it is `None`. */
  datatype RemotePattern = RemotePattern(protocol: string, hostname: string, port: Option<string>, pathname: string)

  /** `s.replace(c, "")` with a one-character string pattern: only the first `c` goes. */
  function RemoveFirst(s: string, c: char): (r: string)
    ensures c !in s ==> r == s
    ensures c in s ==> |r| == |s| - 1
  {
    if s == [] then []
    else if s[0] == c then s[1..]
    else [s[0]] + RemoveFirst(s[1..], c)
  }

  /** The character removed is the first `c`, and the rest stays in place. */
  lemma {:induction false} RemoveFirstAt(s: string, c: char, k: nat)
    requires k < |s| && s[k] == c && c !in s[..k]
    ensures RemoveFirst(s, c) == s[..k] + s[k + 1..]
  {
    if k > 0 {
      assert s[0] == s[..k][0];
      assert s[1..][..k - 1] == s[1..k];
      RemoveFirstAt(s[1..], c, k - 1);
      assert s[..k] == [s[0]] + s[1..][..k - 1];
      assert s[k + 1..] == s[1..][k..];
    }
  }

  /** A WHATWG protocol is a scheme and one colon; removing the colon leaves the scheme. */
  lemma SchemeOfProtocol(scheme: string)
    requires ':' !in scheme
    ensures RemoveFirst(scheme + ":", ':') == scheme
  {
    var p := scheme + ":";
    assert p[|scheme|] == ':' && p[..|scheme|] == scheme && p[|scheme| + 1..] == [];
    RemoveFirstAt(p, ':', |scheme|);
  }

  /** The pattern every entry uses for the path: any path on the host. */
  const AnyPath := "/**"

  /**
   * `getRemotePatternFromUrl(urlValue)`: `None` for an empty value, a value `new URL` rejects,
   * or an empty protocol or host name.
   */
  function RemotePatternFromUrl(urlValue: string, parse: Parser): (r: Option<RemotePattern>)
    ensures urlValue == "" || parse(urlValue).None? ==> r.None?
    ensures r.Some? ==> var u := parse(urlValue).value;
      r.value.protocol == RemoveFirst(u.protocol, ':') && r.value.protocol != ""
      && r.value.hostname == u.hostname && r.value.hostname != ""
      && (r.value.port.Some? <==> u.port != "")
      && (r.value.port.Some? ==> r.value.port.value == u.port)
      && r.value.pathname == AnyPath
    ensures urlValue != "" && parse(urlValue).Some? ==>
      (r.None? <==> RemoveFirst(parse(urlValue).value.protocol, ':') == "" || parse(urlValue).value.hostname == "")
  {
    if urlValue == "" then None
    else
      match parse(urlValue)
      case None => None
      case Some(u) =>
        var protocol := RemoveFirst(u.protocol, ':');
        if protocol == "" || u.hostname == "" then None
        else Some(RemotePattern(protocol, u.hostname, if u.port != "" then Some(u.port) else None, AnyPath))
  }

  /** A URL parsed with a scheme and a host gives the scheme, the host and the port. */
  lemma PatternOfParsedUrl(urlValue: string, parse: Parser, scheme: string)
    requires urlValue != "" && parse(urlValue).Some?
    requires parse(urlValue).value.protocol == scheme + ":" && scheme != "" && ':' !in scheme
    requires parse(urlValue).value.hostname != ""
    ensures var u := parse(urlValue).value;
      RemotePatternFromUrl(urlValue, parse)
        == Some(RemotePattern(scheme, u.hostname, if u.port == "" then None else Some(u.port), AnyPath))
  {
    SchemeOfProtocol(scheme);
  }

  // ---- remotePatterns ----

  /** The four hosts the site always accepts. */
  const FixedPatterns := [
    RemotePattern("http", "localhost", Some("1337"), AnyPath),
    RemotePattern("http", "127.0.0.1", Some("1337"), AnyPath),
    RemotePattern("https", "picsum.photos", None, AnyPath),
    RemotePattern("https", "rampurnews.com", None, AnyPath)]

  /** Every entry names a protocol and allows any path. */
  predicate WellFormedPatterns(ps: seq<RemotePattern>) {
    forall k :: 0 <= k < |ps| ==> ps[k].pathname == AnyPath && ps[k].protocol != ""
  }

  lemma FixedPatternsWellFormed(ps: seq<RemotePattern>)
    requires ps == FixedPatterns
    ensures |ps| == 4 && WellFormedPatterns(ps)
  {
  }

  /** Pushing a well-formed entry keeps the list well formed. */
  lemma PushWellFormed(ps: seq<RemotePattern>, p: RemotePattern)
    requires WellFormedPatterns(ps) && p.pathname == AnyPath && p.protocol != ""
    ensures WellFormedPatterns(ps + [p])
  {
    assert forall k :: 0 <= k < |ps| ==> (ps + [p])[k] == ps[k];
  }

  /** The pattern derived from the configured Strapi URL, if any. */
  function StrapiOriginPattern(env: BuildEnv, parse: Parser): Option<RemotePattern> {
    RemotePatternFromUrl(BaseUrlFromEnv(env), parse)
  }

  /**
   * The assembly of `remotePatterns`: the fixed list, then `push` of the derived pattern when
   * derivation succeeds.
   */
  method RemotePatterns(env: BuildEnv, parse: Parser) returns (patterns: seq<RemotePattern>)
    ensures |patterns| >= 4 && patterns[..4] == FixedPatterns
    ensures |patterns| == 5 <==> StrapiOriginPattern(env, parse).Some?
    ensures |patterns| == 5 ==> patterns[4] == StrapiOriginPattern(env, parse).value
    ensures |patterns| <= 5
    ensures WellFormedPatterns(patterns)
  {
    patterns := FixedPatterns;
    FixedPatternsWellFormed(patterns);
    var base := BaseUrlFromEnv(env);
    var derived := RemotePatternFromUrl(base, parse);
    if derived.Some? {
      PushWellFormed(patterns, derived.value);
      assert (patterns + [derived.value])[..4] == patterns;
      patterns := patterns + [derived.value];
    }
  }

  /** Without a usable Strapi variable, only the fixed hosts are accepted. */
  lemma NoStrapiUrlNoExtraPattern(env: BuildEnv, parse: Parser)
    requires forall k :: 0 <= k < 4 ==> !Usable(EnvCandidates(env)[k])
    ensures StrapiOriginPattern(env, parse).None?
  {
  }
}
