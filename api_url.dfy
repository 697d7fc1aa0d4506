/**
 * `normalizeStrapiApiUrl`, which six files of the site define with the same body
 * (the Strapi extended provider, the admin login and current-user routes, the two Strapi
 * proxy routes, and next.config.js, whose copy first turns a missing value into ""), and
 * the "first configured candidate" selections built on it.
 */
module ApiUrl {
  import opened Wrappers
  import opened Strings

  /** ASCII case-insensitive equality, as a regular expression with the `i` flag compares ASCII text. */
  predicate AsciiEqualIgnoringCase(a: string, b: string) {
    |a| == |b| && forall i :: 0 <= i < |a| ==> AsciiLower(a[i]) == AsciiLower(b[i])
  }

  function AsciiLower(c: char): char {
    if 'A' <= c <= 'Z' then (c as int + 32) as char else c
  }

  /** `/^https?:\/\/[^/]+$/i.test(s)`: a scheme, `//`, and a non-empty rest without `/`. */
  predicate IsBareOrigin(s: string) {
    IsOriginPrefixLength(s, 7) || IsOriginPrefixLength(s, 8)
  }

  /** `s[..n]` is `http://` or `https://` in any letter case, and the rest is non-empty and has no `/`. */
  predicate IsOriginPrefixLength(s: string, n: nat) {
    n < |s|
    && (if n == 7 then AsciiEqualIgnoringCase(s[..7], "http://") else AsciiEqualIgnoringCase(s[..n], "https://"))
    && '/' !in s[n..]
  }

  /** The trimmed value with its trailing slashes removed, which every branch starts from. */
  function Stripped(value: string): string {
    StripTrailing(Trim(value), '/')
  }

  /** `normalizeStrapiApiUrl(value)`. */
  function NormalizeApiUrl(value: string): (r: string)
    ensures r == "" <==> Stripped(value) == ""
    ensures r == Stripped(value) || r == Stripped(value) + "/api"
    ensures r == Stripped(value) + "/api" <==>
              Stripped(value) != "" && !EndsWith(Stripped(value), "/api") && IsBareOrigin(Stripped(value))
  {
    var trimmed := Stripped(value);
    if trimmed == "" then ""
    else if EndsWith(trimmed, "/api") then trimmed
    else if IsBareOrigin(trimmed) then trimmed + "/api"
    else trimmed
  }

  /** A trimmed value without a trailing slash is its own stripped form. */
  lemma StrippedOfClean(s: string)
    requires IsTrimmed(s) && (s == [] || s[|s| - 1] != '/')
    ensures Stripped(s) == s
  {
    TrimOfTrimmed(s);
    assert StripTrailing(s, '/') == s;
  }

  /** With its stripped form as input, `NormalizeApiUrl` decides by the same tests on the same text. */
  lemma NormalizeClean(s: string)
    requires Stripped(s) == s
    ensures NormalizeApiUrl(s) == (if s == "" || EndsWith(s, "/api") || !IsBareOrigin(s) then s else s + "/api")
  {
  }

  /** Normalizing a result again changes nothing, as long as the result has no whitespace at its end. */
  lemma {:induction false} NormalizeIdempotent(value: string)
    requires IsTrimmed(NormalizeApiUrl(value))
    ensures NormalizeApiUrl(NormalizeApiUrl(value)) == NormalizeApiUrl(value)
  {
    var r := NormalizeApiUrl(value);
    var t := Stripped(value);
    if r != "" && r != t {
      assert r == t + "/api";
      assert r[|r| - 4..] == "/api";
    }
    StrippedOfClean(r);
    NormalizeClean(r);
    if r != "" && r == t {
      assert !EndsWith(t, "/api") ==> !IsBareOrigin(t);
    }
  }

  /** One more trailing slash makes no difference to a trimmed value that has none. */
  lemma TrailingSlashIgnored(value: string)
    requires value != "" && IsTrimmed(value) && value[|value| - 1] != '/'
    ensures Stripped(value + "/") == value
  {
    var v := value + "/";
    assert v[0] == value[0] && v[|v| - 1] == '/' && v[..|v| - 1] == value;
    TrimOfTrimmed(v);
    assert StripTrailing(v, '/') == StripTrailing(value, '/');
    assert StripTrailing(value, '/') == value;
  }

  // The unit test's inputs, with the facts about their characters that the cases below use.

  lemma OriginFacts(s: string)
    requires s == "http://localhost:1337"
    ensures IsTrimmed(s) && s != "" && s[|s| - 1] != '/'
    ensures !EndsWith(s, "/api")
  {
  }

  /** `http://` and a host without a path: a bare origin. */
  lemma OriginIsBare(s: string)
    requires s == "http://localhost:1337"
    ensures IsBareOrigin(s)
  {
    assert AsciiEqualIgnoringCase(s[..7], "http://");
    assert '/' !in s[7..];
  }

  lemma ApiFacts(s: string)
    requires s == "http://localhost:1337/api"
    ensures IsTrimmed(s) && s != "" && s[|s| - 1] != '/'
    ensures EndsWith(s, "/api")
  {
  }

  lemma LongerPathFacts(s: string)
    requires s == "http://localhost:1337/api/v1"
    ensures IsTrimmed(s) && s != "" && s[|s| - 1] != '/'
    ensures !EndsWith(s, "/api")
  {
  }

  /** The path after the host has a `/`, whichever scheme length is tried. */
  lemma LongerPathNotOrigin(s: string)
    requires s == "http://localhost:1337/api/v1"
    ensures !IsBareOrigin(s)
  {
    assert '/' == s[7..][14];
    assert '/' == s[8..][13];
  }

  /** The first and second cases pinned by the provider's unit test: a bare origin gains `/api`. */
  lemma UnitTestBareOrigin(s: string)
    requires s == "http://localhost:1337"
    ensures NormalizeApiUrl(s) == s + "/api"
    ensures NormalizeApiUrl(s + "/") == s + "/api"
  {
    OriginFacts(s);
    OriginIsBare(s);
    StrippedOfClean(s);
    NormalizeClean(s);
    TrailingSlashIgnored(s);
  }

  /** The third and fourth cases: a value ending in `/api`, with or without a trailing slash, is kept. */
  lemma UnitTestApiSuffix(s: string)
    requires s == "http://localhost:1337/api"
    ensures NormalizeApiUrl(s) == s
    ensures NormalizeApiUrl(s + "/") == s
  {
    ApiFacts(s);
    StrippedOfClean(s);
    NormalizeClean(s);
    TrailingSlashIgnored(s);
  }

  /** The fifth case: a longer path is returned as it is. */
  lemma UnitTestLongerPath(s: string)
    requires s == "http://localhost:1337/api/v1"
    ensures NormalizeApiUrl(s) == s
  {
    LongerPathFacts(s);
    LongerPathNotOrigin(s);
    StrippedOfClean(s);
    NormalizeClean(s);
  }

  /**
   * The first candidate that is set and that `normalize` maps to a non-empty value, normalized:
   * `candidates.filter(isString).map(normalize).filter(Boolean)[0]`.
   */
  function FirstNormalized(candidates: seq<Option<string>>, normalize: string -> string): (r: Option<string>)
    ensures r.Some? ==> r.value != ""
    ensures r.None? <==> forall k :: 0 <= k < |candidates| && candidates[k].Some? ==> normalize(candidates[k].value) == ""
  {
    if candidates == [] then None
    else if candidates[0].Some? && normalize(candidates[0].value) != "" then Some(normalize(candidates[0].value))
    else
      var r := FirstNormalized(candidates[1..], normalize);
      assert forall k :: 1 <= k < |candidates| ==> candidates[k] == candidates[1..][k - 1];
      r
  }

  /** The chosen value is the normalization of the first usable candidate. */
  lemma {:induction false} FirstNormalizedIsFirst(candidates: seq<Option<string>>, normalize: string -> string, k: nat)
    requires k < |candidates| && candidates[k].Some? && normalize(candidates[k].value) != ""
    requires forall j :: 0 <= j < k && candidates[j].Some? ==> normalize(candidates[j].value) == ""
    ensures FirstNormalized(candidates, normalize) == Some(normalize(candidates[k].value))
  {
    if k > 0 {
      var rest := candidates[1..];
      assert rest[k - 1] == candidates[k];
      assert forall j :: 0 <= j < k - 1 ==> rest[j] == candidates[j + 1];
      FirstNormalizedIsFirst(rest, normalize, k - 1);
    }
  }
}
