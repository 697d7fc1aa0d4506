/**
 * The main CMS module (src/services/cms/index.ts): base-URL normalization, the REST
 * provider's upload-file record, article query record, `fetchJson` status rules and the
 * `getArticles` fallback chain, and the registry of provider instances.
 */
module Cms {
  import opened Wrappers
  import opened Strings
  import opened Seqs
  import opened Json
  import opened Urls
  import opened CmsConfig
  import ApiUrl
  import StrapiExtended

  // ---- normalizeStrapiBaseUrl ----

  /** `pathname.split('/').filter(Boolean)`. */
  function Segments(path: string): (r: seq<string>)
    ensures forall k :: 0 <= k < |r| ==> r[k] != "" && '/' !in r[k]
  {
    var r := NonEmpty(Split(path, '/'));
    assert forall k :: 0 <= k < |r| ==> r[k] in Split(path, '/');
    r
  }

  /** `segments.indexOf('api')`. */
  function ApiIndex(segments: seq<string>): (i: int)
    ensures -1 <= i < |segments|
    ensures i == -1 <==> "api" !in segments
    ensures i >= 0 ==> segments[i] == "api" && "api" !in segments[..i]
  {
    var i := Find(segments, (s: string) => s == "api");
    if i >= 0 then
      assert forall s :: s in segments[..i] ==> exists k :: 0 <= k < i && segments[k] == s;
      i
    else
      assert forall s :: s in segments ==> exists k :: 0 <= k < |segments| && segments[k] == s;
      i
  }

  /** The URL with its path cut just after the first `api` segment and its query and hash dropped. */
  function TruncateAtApi(u: Url): (r: Option<Url>)
    ensures r.Some? <==> "api" in Segments(u.pathname)
    ensures r.Some? ==> var segs := Segments(u.pathname);
              r.value == u.(pathname := "/" + Join(segs[..ApiIndex(segs) + 1], "/"), search := "", hash := "", query := [])
  {
    var segments := Segments(u.pathname);
    var i := ApiIndex(segments);
    if i < 0 then None
    else Some(u.(pathname := "/" + Join(segments[..i + 1], "/"), search := "", hash := "", query := []))
  }

  /** `normalizeStrapiBaseUrl(value)`, with `new URL(...)` given as `parse`. */
  function NormalizeStrapiBaseUrl(value: string, parse: Parser): (r: string)
    ensures ApiUrl.Stripped(value) == "" ==> r == ""
    ensures var t := ApiUrl.Stripped(value);
            t != "" && parse(t).Some? && TruncateAtApi(parse(t).value).Some? ==>
              r == StripTrailing(Href(TruncateAtApi(parse(t).value).value), '/')
    ensures var t := ApiUrl.Stripped(value);
            parse(t).None? || TruncateAtApi(parse(t).value).None? ==> r == ApiUrl.NormalizeApiUrl(value)
  {
    var trimmed := ApiUrl.Stripped(value);
    if trimmed == "" then ""
    else if parse(trimmed).Some? && TruncateAtApi(parse(trimmed).value).Some? then
      StripTrailing(Href(TruncateAtApi(parse(trimmed).value).value), '/')
    else ApiUrl.NormalizeApiUrl(value)
  }

  /** The truncated path's segments are those up to and including the first `api`, which is the last. */
  lemma TruncatedPathEndsInApi(u: Url)
    requires TruncateAtApi(u).Some?
    ensures var segs := Segments(TruncateAtApi(u).value.pathname);
            1 <= |segs| <= |Segments(u.pathname)| && segs == Segments(u.pathname)[..|segs|]
            && segs[|segs| - 1] == "api" && "api" !in segs[..|segs| - 1]
  {
    var all := Segments(u.pathname);
    var i := ApiIndex(all);
    assert 0 <= i < |all|;
    var kept := all[..i + 1];
    assert TruncateAtApi(u).value.pathname == "/" + Join(kept, "/");
    assert forall k :: 0 <= k < |kept| ==> kept[k] == all[k];
    PathOfSegments(kept);
    var segs := Segments(TruncateAtApi(u).value.pathname);
    assert segs == kept;
    assert |segs| == i + 1 && segs[i] == "api";
    assert kept[..i] == all[..i];
  }

  /** A path written as `/` and the joined segments splits back into those segments. */
  lemma PathOfSegments(kept: seq<string>)
    requires |kept| >= 1 && forall k :: 0 <= k < |kept| ==> kept[k] != "" && '/' !in kept[k]
    ensures Segments("/" + Join(kept, "/")) == kept
  {
    SplitJoin(kept, '/');
    SplitAfterPiece("", '/', Join(kept, "/"));
    assert "/" + Join(kept, "/") == "" + ['/'] + Join(kept, ['/']);
    NonEmptyOfNonEmpty(kept);
    assert ([""] + kept)[1..] == kept;
  }

  // ---- the REST provider: media records ----

  /** `toAbsoluteStrapiUrl(origin, url)`: unlike the extended provider's copy, it does not test the origin first. */
  function ToAbsoluteStrapiUrl(origin: string, url: string, resolve: Resolver): (r: string)
    ensures url == "" || StrapiExtended.IsHttpAbsolute(url) ==> r == url
    ensures url != "" && !StrapiExtended.IsHttpAbsolute(url) ==> r == resolve(url, origin).GetOr(url)
  {
    if url == "" then url
    else if StrapiExtended.IsHttpAbsolute(url) then url
    else resolve(url, origin).GetOr(url)
  }

  /** `CMSMedia`; `width` and `height` are optional numbers. */
  datatype Media = Media(
    id: string, url: string, title: string, altText: string, mimeType: string, size: int,
    width: Option<int>, height: Option<int>, uploadedAt: string, uploadedBy: string)

  function StringField(v: Value, key: string): (r: string)
    ensures Get(v, key).Str? ==> r == Get(v, key).s
    ensures !Get(v, key).Str? ==> r == ""
  {
    GetString(v, key).GetOr("")
  }

  function NumberField(v: Value, key: string): (r: Option<int>)
    ensures r.Some? <==> Get(v, key).Num?
    ensures r.Some? ==> r.value == Get(v, key).n
  {
    if Get(v, key).Num? then Some(Get(v, key).n) else None
  }

  /** `normalizeStrapiUploadFile(file, origin)`; `now` stands for `new Date().toISOString()`. */
  function NormalizeStrapiUploadFile(file: Value, origin: string, resolve: Resolver, now: string): (r: Option<Media>)
    ensures r.None? <==> !Truthy(file)
    ensures r.Some? ==> r.value.uploadedBy == "strapi" && r.value.id == ToJsString(Get(file, "id"))
    ensures r.Some? ==> r.value.title == ToJsString(Or(Get(file, "name"), Or(Get(file, "hash"), Str("file"))))
    ensures r.Some? ==> r.value.url == ToAbsoluteStrapiUrl(origin, ToJsString(Or(Get(file, "url"), Str(""))), resolve)
    ensures r.Some? ==> r.value.altText == StringField(file, "alternativeText") && r.value.mimeType == StringField(file, "mime")
    ensures r.Some? ==> r.value.size == NumberField(file, "size").GetOr(0)
    ensures r.Some? ==> r.value.width == NumberField(file, "width") && r.value.height == NumberField(file, "height")
    ensures r.Some? ==> r.value.uploadedAt == (if Get(file, "createdAt").Str? then Get(file, "createdAt").s else now)
  {
    if !Truthy(file) then None
    else
      Some(Media(
        ToJsString(Get(file, "id")),
        ToAbsoluteStrapiUrl(origin, ToJsString(Or(Get(file, "url"), Str(""))), resolve),
        ToJsString(Or(Get(file, "name"), Or(Get(file, "hash"), Str("file")))),
        StringField(file, "alternativeText"),
        StringField(file, "mime"),
        NumberField(file, "size").GetOr(0),
        NumberField(file, "width"),
        NumberField(file, "height"),
        GetString(file, "createdAt").GetOr(now),
        "strapi"))
  }

  /** The title falls back from the name to the hash to `file`. */
  lemma UploadTitleFallback(file: Value, origin: string, resolve: Resolver, now: string)
    requires file.Obj?
    ensures var m := NormalizeStrapiUploadFile(file, origin, resolve, now).value;
            (Get(file, "name").Str? && Get(file, "name").s != "" ==> m.title == Get(file, "name").s)
            && (!Truthy(Get(file, "name")) && Get(file, "hash").Str? && Get(file, "hash").s != "" ==> m.title == Get(file, "hash").s)
            && (!Truthy(Get(file, "name")) && !Truthy(Get(file, "hash")) ==> m.title == "file")
  {
  }

  // ---- the article query record ----

  /** `ArticleQueryParams`. */
  datatype ArticleQueryParams = ArticleQueryParams(
    category: Option<string>, status: Option<string>, featured: Option<bool>, breaking: Option<bool>,
    limit: Option<int>, offset: Option<int>, search: Option<string>, author: Option<string>,
    orderBy: Option<string>, order: Option<string>)

  predicate IsSet(o: Option<string>) {
    o.Some? && o.value != ""
  }

  /** The ten guarded assignments of `buildArticleQuery`, in source order. */
  function ArticleQueryTable(p: ArticleQueryParams): (t: seq<(bool, string, Value)>)
    ensures |t| == 10
  {
    [(IsSet(p.category), "category", Str(p.category.GetOr(""))),
     (IsSet(p.status), "status", Str(p.status.GetOr(""))),
     (p.featured.Some?, "featured", Bool(p.featured.GetOr(false))),
     (p.breaking.Some?, "breaking", Bool(p.breaking.GetOr(false))),
     (p.limit.Some?, "limit", Num(p.limit.GetOr(0))),
     (p.offset.Some?, "offset", Num(p.offset.GetOr(0))),
     (IsSet(p.search), "search", Str(p.search.GetOr(""))),
     (IsSet(p.author), "author", Str(p.author.GetOr(""))),
     (IsSet(p.orderBy), "orderBy", Str(p.orderBy.GetOr(""))),
     (IsSet(p.order), "order", Str(p.order.GetOr("")))]
  }

  /** `buildArticleQuery(params)`: the record's entries in insertion order, or undefined without params. */
  method BuildArticleQuery(params: Option<ArticleQueryParams>) returns (query: Option<seq<(string, Value)>>)
    ensures query.None? <==> params.None?
    ensures params.Some? ==> query.value == StrapiExtended.Applied(ArticleQueryTable(params.value))
  {
    if params.None? {
      return None;
    }
    var entries := StrapiExtended.PushFilters([], ArticleQueryTable(params.value));
    query := Some(entries);
  }

  /** A field is in the query exactly when it is set; the flags and numbers count even as `false` or 0. */
  lemma ArticleQueryKeys(p: ArticleQueryParams)
    ensures forall j :: 0 <= j < 10 && ArticleQueryTable(p)[j].0 ==>
              (ArticleQueryTable(p)[j].1, ArticleQueryTable(p)[j].2) in StrapiExtended.Applied(ArticleQueryTable(p))
    ensures p.featured == Some(false) ==> ("featured", Bool(false)) in StrapiExtended.Applied(ArticleQueryTable(p))
    ensures p.offset == Some(0) ==> ("offset", Num(0)) in StrapiExtended.Applied(ArticleQueryTable(p))
    ensures p.category == Some("") ==> forall e :: e in StrapiExtended.Applied(ArticleQueryTable(p)) ==> e.0 != "category"
  {
    var t := ArticleQueryTable(p);
    StrapiExtended.AppliedExactly(t);
    assert t[2].1 == "featured" && t[5].1 == "offset";
    if p.category == Some("") {
      forall e | e in StrapiExtended.Applied(t) ensures e.0 != "category" {
        var j :| 0 <= j < |t| && t[j].0 && (t[j].1, t[j].2) == e;
        assert j != 0;
      }
    }
  }

  // ---- fetchJson ----

  /** What an upstream reply offers: status, content type, and `response.json()`/`response.text()` (`None` where they throw). */
  datatype Response = Response(status: int, contentType: string, json: Option<Value>, text: Option<string>)

  /** The outcome of `fetch(...)`: a network failure (a `TypeError`) or a response. */
  datatype Attempt = NetworkError | Responded(response: Response)

  /** What `fetchJson` throws: an `HttpError`, the `TypeError` of `fetch`, or the parse error of a success body. */
  datatype Failure = HttpFailure(status: int, message: string) | NetworkFailure | BodyFailure

  datatype Fetched = Done(value: Value) | Failed(failure: Failure)

  predicate IsOk(status: int) {
    200 <= status < 300
  }

  function DefaultMessage(status: int): string {
    "Request failed with status " + IntToString(status)
  }

  /** The error message: from a JSON body's `error.message`, `message` or `error`, or a text body, when not blank. */
  function ErrorMessage(r: Response): (m: string)
    ensures m != DefaultMessage(r.status) ==> Trim(m) != ""
    ensures Contains(r.contentType, "application/json") && r.json.Some? && m != DefaultMessage(r.status) ==>
              var body := r.json.value;
              Or(Get(Get(body, "error"), "message"), Or(Get(body, "message"), Get(body, "error"))) == Str(m)
    ensures !Contains(r.contentType, "application/json") && m != DefaultMessage(r.status) ==> r.text == Some(m)
    ensures Contains(r.contentType, "application/json") && r.json.None? ==> m == DefaultMessage(r.status)
    ensures !Contains(r.contentType, "application/json") && r.text.Some? && Trim(r.text.value) != "" ==> m == r.text.value
  {
    if Contains(r.contentType, "application/json") then
      if r.json.None? then DefaultMessage(r.status)
      else
        var body := r.json.value;
        var maybe := Or(Get(Get(body, "error"), "message"), Or(Get(body, "message"), Get(body, "error")));
        if maybe.Str? && Trim(maybe.s) != "" then maybe.s else DefaultMessage(r.status)
    else if r.text.Some? && Trim(r.text.value) != "" then r.text.value
    else DefaultMessage(r.status)
  }

  /** `fetchJson(input, init, { allowNotFound })`, `null` being `Done(Null)`. */
  function FetchJson(a: Attempt, allowNotFound: Option<bool>): (r: Fetched)
    ensures a.NetworkError? ==> r == Failed(NetworkFailure)
    ensures a.Responded? && a.response.status == 204 ==> r == Done(Null)
    ensures a.Responded? && a.response.status == 404 ==> (r == Done(Null) <==> allowNotFound != Some(false))
    ensures r.Failed? && r.failure.HttpFailure? ==>
              a.Responded? && r.failure.status == a.response.status && !IsOk(a.response.status)
              && r.failure.message == ErrorMessage(a.response)
    ensures a.Responded? && !IsOk(a.response.status) && (a.response.status != 404 || allowNotFound == Some(false)) ==>
              r.Failed? && r.failure.HttpFailure?
    ensures a.Responded? && IsOk(a.response.status) && a.response.status != 204 ==>
              r == (if a.response.json.Some? then Done(a.response.json.value) else Failed(BodyFailure))
  {
    match a
    case NetworkError => Failed(NetworkFailure)
    case Responded(response) =>
      if response.status == 204 then Done(Null)
      else if !IsOk(response.status) then
        if response.status == 404 && allowNotFound != Some(false) then Done(Null)
        else Failed(HttpFailure(response.status, ErrorMessage(response)))
      else if response.json.Some? then Done(response.json.value)
      else Failed(BodyFailure)
  }

  // ---- getArticles ----

  /** One call of `tryFetch`: the path, whether the API key is sent, and `allowNotFound`. */
  datatype Request = Request(path: string, includeApiKey: bool, allowNotFound: Option<bool>)

  const AdminRequest := Request("/articles/admin", true, Some(false))
  const PublicRequest := Request("/articles", false, None)
  const KeyedPublicRequest := Request("/articles", true, None)

  /** `canUseStrapiAdmin`: a Strapi provider with a key, on the server. */
  predicate CanUseStrapiAdmin(c: Config, onServer: bool) {
    c.provider == Strapi && Token(c) != "" && onServer
  }

  /** The admin attempt is retried on 401, 403, 404 or a `TypeError`. */
  predicate AdminRetryable(f: Failure) {
    (f.HttpFailure? && f.status in {401, 403, 404}) || f.NetworkFailure?
  }

  predicate Unauthorized(f: Failure) {
    f.HttpFailure? && f.status in {401, 403}
  }

  datatype Articles = Returned(page: Value) | EmptyPage(pageSize: int) | Thrown(failure: Failure)

  /** `params?.limit || 10`. */
  function PageSize(limit: Option<int>): int {
    if limit.Some? && limit.value != 0 then limit.value else 10
  }

  /** The end of the chain: a failure is thrown, a falsy result becomes an empty page. */
  function Finish(r: Fetched, limit: Option<int>): Articles {
    if r.Failed? then Thrown(r.failure)
    else if !Truthy(r.value) then EmptyPage(PageSize(limit))
    else Returned(r.value)
  }

  /**
   * `getArticles(params)`: the requests made, in order, and the outcome; `respond` gives the
   * upstream outcome of each request.
   */
  function GetArticles(c: Config, onServer: bool, limit: Option<int>, respond: Request -> Attempt): (r: (seq<Request>, Articles))
    ensures 1 <= |r.0| <= 3
    ensures r.0[0] == (if CanUseStrapiAdmin(c, onServer) then AdminRequest else PublicRequest)
    ensures !CanUseStrapiAdmin(c, onServer) ==> |r.0| == 1
    ensures |r.0| >= 2 ==> r.0[1] == PublicRequest
    ensures |r.0| == 3 ==> r.0[2] == KeyedPublicRequest
    ensures forall k :: 0 <= k < |r.0| - 1 ==> FetchJson(respond(r.0[k]), r.0[k].allowNotFound).Failed?
    ensures |r.0| >= 2 ==> AdminRetryable(FetchJson(respond(r.0[0]), r.0[0].allowNotFound).failure)
    ensures |r.0| == 3 ==> Unauthorized(FetchJson(respond(r.0[1]), r.0[1].allowNotFound).failure)
    ensures var last := r.0[|r.0| - 1]; r.1 == Finish(FetchJson(respond(last), last.allowNotFound), limit)
  {
    if !CanUseStrapiAdmin(c, onServer) then
      ([PublicRequest], Finish(FetchJson(respond(PublicRequest), None), limit))
    else
      var first := FetchJson(respond(AdminRequest), Some(false));
      if first.Done? || !AdminRetryable(first.failure) then ([AdminRequest], Finish(first, limit))
      else
        var second := FetchJson(respond(PublicRequest), None);
        if second.Done? || !(Token(c) != "" && onServer && Unauthorized(second.failure)) then
          ([AdminRequest, PublicRequest], Finish(second, limit))
        else
          ([AdminRequest, PublicRequest, KeyedPublicRequest], Finish(FetchJson(respond(KeyedPublicRequest), None), limit))
  }

  /** A failure the chain has a rule for is never the one thrown: a retry always follows it. */
  lemma GetArticlesRetriesWhenItCan(c: Config, onServer: bool, limit: Option<int>, respond: Request -> Attempt)
    requires CanUseStrapiAdmin(c, onServer)
    ensures var r := GetArticles(c, onServer, limit, respond);
            var first := FetchJson(respond(AdminRequest), Some(false));
            first.Failed? && AdminRetryable(first.failure) ==> |r.0| >= 2
    ensures var r := GetArticles(c, onServer, limit, respond);
            var first := FetchJson(respond(AdminRequest), Some(false));
            var second := FetchJson(respond(PublicRequest), None);
            first.Failed? && AdminRetryable(first.failure) && second.Failed? && Unauthorized(second.failure) ==> |r.0| == 3
    ensures var r := GetArticles(c, onServer, limit, respond);
            r.1.Thrown? ==> var last := r.0[|r.0| - 1]; FetchJson(respond(last), last.allowNotFound) == Failed(r.1.failure)
  {
  }

  /** Outside admin mode a 404 is an empty page of the requested size, never an error. */
  lemma PublicNotFoundIsEmpty(c: Config, onServer: bool, limit: Option<int>, respond: Request -> Attempt)
    requires !CanUseStrapiAdmin(c, onServer)
    requires respond(PublicRequest).Responded? && respond(PublicRequest).response.status == 404
    ensures GetArticles(c, onServer, limit, respond).1 == EmptyPage(PageSize(limit))
    ensures PageSize(limit) != 0
  {
  }

  // ---- the provider registry ----

  /** A provider instance: the mock, one built from a configuration, or one registered from outside. */
  datatype Instance = MockInstance | WordPressInstance(baseUrl: string, apiKey: Option<string>) | RestInstance(config: Config) | RegisteredInstance(tag: nat)

  const DefaultConfig := Config(Strapi, Some("http://localhost:1337/api"), None)

  /** `providerInstances[currentConfig.provider]`, the mock when absent. */
  function Resolve(instances: map<ProviderName, Instance>, c: Config): (p: Instance)
    ensures c.provider !in instances ==> p == MockInstance
    ensures c.provider in instances ==> p == instances[c.provider]
  {
    if c.provider in instances then instances[c.provider] else MockInstance
  }

  /** The instances after `configureCMS(c)`. */
  function Configured(instances: map<ProviderName, Instance>, c: Config): (r: map<ProviderName, Instance>)
    ensures r.Keys == instances.Keys + (if HasBaseUrl(c) && c.provider != Mock then {c.provider} else {})
    ensures forall p :: p in instances && (p != c.provider || !HasBaseUrl(c)) ==> r[p] == instances[p]
  {
    if !HasBaseUrl(c) then instances
    else
      match c.provider
      case Mock => instances
      case WordPress => instances[WordPress := WordPressInstance(c.baseUrl.value, c.apiKey)]
      case _ => instances[c.provider := RestInstance(c)]
  }

  /** After configuring a backend with a base URL, that backend is served; without one, the previous instance or the mock is. */
  lemma ConfigureThenResolve(instances: map<ProviderName, Instance>, c: Config)
    ensures c.provider in {Strapi, Django, Custom} && HasBaseUrl(c) ==> Resolve(Configured(instances, c), c) == RestInstance(c)
    ensures c.provider == WordPress && HasBaseUrl(c) ==> Resolve(Configured(instances, c), c) == WordPressInstance(c.baseUrl.value, c.apiKey)
    ensures !HasBaseUrl(c) ==> Resolve(Configured(instances, c), c) == Resolve(instances, c)
    ensures !HasBaseUrl(c) && c.provider !in instances ==> Resolve(Configured(instances, c), c) == MockInstance
  {
  }

  /** Every instance built from a configuration sits under that configuration's provider and has its base URL. */
  ghost predicate WellKeyed(instances: map<ProviderName, Instance>) {
    forall p :: p in instances && instances[p].RestInstance? ==>
      instances[p].config.provider == p && HasBaseUrl(instances[p].config) && p in {Strapi, Django, Custom}
  }

  lemma ConfiguredWellKeyed(instances: map<ProviderName, Instance>, c: Config)
    requires WellKeyed(instances)
    ensures WellKeyed(Configured(instances, c))
  {
  }

  /** An instance may sit in slot `t` of a well-keyed registry. */
  ghost predicate RegistrableAt(t: ProviderName, p: Instance) {
    p.RestInstance? ==> p.config.provider == t && HasBaseUrl(p.config) && t in {Strapi, Django, Custom}
  }

  lemma RegisterWellKeyed(instances: map<ProviderName, Instance>, t: ProviderName, p: Instance)
    requires WellKeyed(instances) && RegistrableAt(t, p)
    ensures WellKeyed(instances[t := p])
  {
  }

  /** The module state: `currentConfig` and `providerInstances`. */
  class CmsRegistry {
    var current: Config
    var instances: map<ProviderName, Instance>

    ghost predicate Valid()
      reads this
    {
      WellKeyed(instances)
    }

    constructor ()
      ensures Valid()
      ensures current == DefaultConfig
      ensures instances == map[Mock := MockInstance, Strapi := RestInstance(DefaultConfig)]
    {
      current := DefaultConfig;
      instances := map[Mock := MockInstance, Strapi := RestInstance(DefaultConfig)];
    }

    /** `getCMSProvider()`; in a well-keyed registry a built instance serves the current provider. */
    method GetProvider() returns (p: Instance)
      ensures p == Resolve(instances, current)
      ensures Valid() && p.RestInstance? ==> p.config.provider == current.provider && HasBaseUrl(p.config)
    {
      p := Resolve(instances, current);
    }

    /** `getCMSConfig()`. */
    method GetConfig() returns (c: Config)
      ensures c == current
    {
      c := current;
    }

    /** `configureCMS(config)`. */
    method Configure(c: Config)
      modifies this
      ensures old(Valid()) ==> Valid()
      ensures current == c && instances == Configured(old(instances), c)
    {
      current := c;
      if WellKeyed(instances) {
        ConfiguredWellKeyed(instances, c);
      }
      if c.provider == WordPress && HasBaseUrl(c) {
        instances := instances[WordPress := WordPressInstance(c.baseUrl.value, c.apiKey)];
      }
      if (c.provider == Strapi || c.provider == Django || c.provider == Custom) && HasBaseUrl(c) {
        instances := instances[c.provider := RestInstance(c)];
      }
    }

    /**
     * `registerCMSProvider(type, provider)`; the registry stays well keyed when a REST instance
     * is registered under its own provider with a base URL.
     */
    method Register(t: ProviderName, p: Instance)
      modifies this
      ensures current == old(current) && instances == old(instances)[t := p]
      ensures old(Valid()) && RegistrableAt(t, p) ==> Valid()
    {
      ghost var before := instances;
      instances := instances[t := p];
      if WellKeyed(before) && RegistrableAt(t, p) {
        RegisterWellKeyed(before, t, p);
      }
    }
  }
}
