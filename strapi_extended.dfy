/**
 * The Strapi side of the extended CMS (src/services/cms/strapiExtendedProvider.ts):
 * the API origin, absolute media URLs, the walk through Strapi's nested media values, the
 * flattening of an entity and its SEO block, and the ordered query pairs of list and
 * slug requests with their encoding.
 */
module StrapiExtended {
  import opened Wrappers
  import opened Strings
  import opened Json
  import opened Urls
  import opened FormEncoding
  import opened ExtendedTypes

  // ---- origin and absolute URLs ----

  /** `getOrigin`: `protocol//host` of the parsed API URL, or "" when it does not parse. */
  function GetOrigin(apiUrl: string, parse: Parser): (r: string)
    ensures parse(apiUrl).None? ==> r == ""
    ensures parse(apiUrl).Some? ==> StartsWith(Href(parse(apiUrl).value), r) || parse(apiUrl).value.credentials != ""
    ensures parse(apiUrl).Some? ==> var u := parse(apiUrl).value;
              StartsWith(r, u.protocol + "//")
              && Href(u) == u.protocol + "//" + u.credentials + r[|u.protocol| + 2..] + u.pathname + u.search + u.hash
  {
    match parse(apiUrl)
    case None => ""
    case Some(u) =>
      assert Href(u) == (u.protocol + "//" + Host(u)) + (u.credentials + u.pathname + u.search + u.hash) || u.credentials != "";
      u.protocol + "//" + Host(u)
  }

  predicate IsHttpAbsolute(url: string) {
    StartsWith(url, "http://") || StartsWith(url, "https://")
  }

  /** `toAbsoluteUrl(origin, url)`. */
  function ToAbsoluteUrl(origin: string, url: string, resolve: Resolver): (r: string)
    ensures url == "" || IsHttpAbsolute(url) || origin == "" ==> r == url
    ensures r != url ==> resolve(url, origin) == Some(r)
    ensures url != "" && !IsHttpAbsolute(url) && origin != "" && resolve(url, origin).Some? ==> r == resolve(url, origin).value
  {
    if url == "" then url
    else if IsHttpAbsolute(url) then url
    else if origin == "" then url
    else
      match resolve(url, origin)
      case None => url
      case Some(r) => r
  }

  /** Resolving a URL that is already the result of a resolution against the same base changes nothing. */
  ghost predicate ResolveIdempotent(resolve: Resolver) {
    forall u, o :: resolve(u, o).Some? ==> resolve(resolve(u, o).value, o) == resolve(u, o)
  }

  /** Making a URL absolute twice is the same as once, for any resolver that is idempotent. */
  lemma ToAbsoluteIdempotent(origin: string, url: string, resolve: Resolver)
    requires ResolveIdempotent(resolve)
    ensures ToAbsoluteUrl(origin, ToAbsoluteUrl(origin, url, resolve), resolve) == ToAbsoluteUrl(origin, url, resolve)
  {
    var r := ToAbsoluteUrl(origin, url, resolve);
    if r != url {
      assert resolve(url, origin) == Some(r);
      assert resolve(r, origin) == Some(r);
    }
  }

  // ---- media values ----

  /**
   * `typeof v.url === "string" ? v.url : typeof v.attributes?.url === "string" ? v.attributes.url : undefined`.
   * A string `url` wins even when it is empty.
   */
  function OwnUrl(v: Value): (r: Option<string>)
    ensures Get(v, "url").Str? ==> r == Some(Get(v, "url").s)
    ensures !Get(v, "url").Str? ==> r == GetString(Get(v, "attributes"), "url")
  {
    if GetString(v, "url").Some? then GetString(v, "url") else GetString(Get(v, "attributes"), "url")
  }

  /** `extractMediaUrl(value, origin)`; `None` stands for `undefined`. */
  function ExtractMediaUrl(v: Value, origin: string, resolve: Resolver): (r: Option<string>)
    ensures r.Some? ==> v.Obj?
    ensures OwnUrl(v).Some? && OwnUrl(v).value != "" ==> r == Some(ToAbsoluteUrl(origin, OwnUrl(v).value, resolve))
    decreases v
  {
    if !Truthy(v) || !IsObjectType(v) then None
    else
      var own := OwnUrl(v);
      if own.Some? && own.value != "" then Some(ToAbsoluteUrl(origin, own.value, resolve))
      else
        var nested := if v.Obj? && "data" in v.fields then v.fields["data"] else Undefined;
        if !Truthy(nested) then None
        else if nested.Arr? then
          if |nested.items| == 0 || !Truthy(nested.items[0]) then None
          else ExtractMediaUrl(nested.items[0], origin, resolve)
        else ExtractMediaUrl(nested, origin, resolve)
  }

  /** A media value of Strapi's flat shape `{url}` and of its `{attributes: {url}}` shape give the same URL. */
  lemma FlatAndAttributeShapesAgree(u: string, origin: string, resolve: Resolver)
    requires u != ""
    ensures ExtractMediaUrl(Obj(map["url" := Str(u)]), origin, resolve) == Some(ToAbsoluteUrl(origin, u, resolve))
    ensures ExtractMediaUrl(Obj(map["attributes" := Obj(map["url" := Str(u)])]), origin, resolve)
         == Some(ToAbsoluteUrl(origin, u, resolve))
  {
    var flat := Obj(map["url" := Str(u)]);
    var nested := Obj(map["attributes" := Obj(map["url" := Str(u)])]);
    assert OwnUrl(flat) == Some(u);
    assert !Get(nested, "url").Str?;
    assert OwnUrl(nested) == Some(u);
  }

  /** Wrapping a media value in `{data: x}`, or in `{data: [x, ...]}`, does not change its URL. */
  lemma DataWrapperTransparent(x: Value, rest: seq<Value>, origin: string, resolve: Resolver)
    requires Truthy(x) && !x.Arr?
    ensures ExtractMediaUrl(Obj(map["data" := x]), origin, resolve) == ExtractMediaUrl(x, origin, resolve)
    ensures ExtractMediaUrl(Obj(map["data" := Arr([x] + rest)]), origin, resolve) == ExtractMediaUrl(x, origin, resolve)
  {
    var w := Obj(map["data" := x]);
    assert Get(w, "url") == Undefined && Get(w, "attributes") == Undefined;
    var wa := Obj(map["data" := Arr([x] + rest)]);
    assert Get(wa, "url") == Undefined && Get(wa, "attributes") == Undefined;
    assert ([x] + rest)[0] == x;
  }

  /** The image of the provider's unit test, `{data: {attributes: {url: "/uploads/x.jpg"}}}`, is that path made absolute. */
  lemma UnitTestImage(path: string, origin: string, resolve: Resolver)
    requires path == "/uploads/x.jpg"
    ensures ExtractMediaUrl(Obj(map["data" := Obj(map["attributes" := Obj(map["url" := Str(path)])])]), origin, resolve)
         == Some(ToAbsoluteUrl(origin, path, resolve))
  {
    FlatAndAttributeShapesAgree(path, origin, resolve);
    DataWrapperTransparent(Obj(map["attributes" := Obj(map["url" := Str(path)])]), [], origin, resolve);
  }

  /** `single ? [single] : undefined`. */
  function Singleton(u: Option<string>): (r: Option<seq<string>>)
    ensures r.Some? <==> u.Some? && u.value != ""
    ensures r.Some? ==> r.value == [u.value]
  {
    if u.Some? && u.value != "" then Some([u.value]) else None
  }

  /** `items.map((item) => extractMediaUrl(item, origin)).filter(Boolean)`. */
  function MediaUrlsOf(items: seq<Value>, origin: string, resolve: Resolver): (r: seq<string>)
    ensures |r| <= |items|
    ensures forall k :: 0 <= k < |r| ==> r[k] != ""
  {
    if items == [] then []
    else
      var u := ExtractMediaUrl(items[0], origin, resolve);
      (if u.Some? && u.value != "" then [u.value] else []) + MediaUrlsOf(items[1..], origin, resolve)
  }

  /** `extractMediaUrls(value, origin)`: a non-empty list of non-empty URLs, or `None`. */
  function ExtractMediaUrls(v: Value, origin: string, resolve: Resolver): (r: Option<seq<string>>)
    ensures r.Some? ==> |r.value| >= 1 && forall k :: 0 <= k < |r.value| ==> r.value[k] != ""
  {
    if !Truthy(v) || !IsObjectType(v) then None
    else
      var nested := Get(v, "data");
      if !Truthy(nested) then Singleton(ExtractMediaUrl(v, origin, resolve))
      else if nested.Arr? then
        var urls := MediaUrlsOf(nested.items, origin, resolve);
        if urls == [] then None else Some(urls)
      else Singleton(ExtractMediaUrl(nested, origin, resolve))
  }

  /**
   * The first gallery URL is the cover URL: for `{data: [x, ...]}` whose first item has a URL,
   * `extractMediaUrls` starts with what `extractMediaUrl` picks for the whole value.
   */
  lemma GalleryStartsWithCover(items: seq<Value>, origin: string, resolve: Resolver)
    requires |items| >= 1 && Truthy(items[0])
    requires ExtractMediaUrl(items[0], origin, resolve).Some? && ExtractMediaUrl(items[0], origin, resolve).value != ""
    ensures ExtractMediaUrls(Obj(map["data" := Arr(items)]), origin, resolve).Some?
    ensures ExtractMediaUrls(Obj(map["data" := Arr(items)]), origin, resolve).value[0]
         == ExtractMediaUrl(Obj(map["data" := Arr(items)]), origin, resolve).value
  {
    var v := Obj(map["data" := Arr(items)]);
    assert Get(v, "data") == Arr(items);
    assert Get(v, "url") == Undefined && Get(v, "attributes") == Undefined;
  }

  /** Without an array under `data`, the list form is the single URL as a one-item list. */
  lemma UrlsAgreeWithUrl(v: Value, origin: string, resolve: Resolver)
    requires !Get(v, "data").Arr?
    requires OwnUrl(v).None? || OwnUrl(v).value == ""
    ensures ExtractMediaUrls(v, origin, resolve) == Singleton(ExtractMediaUrl(v, origin, resolve))
  {
  }

  /** The gallery of the provider's unit test: one `{attributes: {url}}` item and one `{url}` item. */
  lemma UnitTestGallery(g1: string, g2: string, origin: string, resolve: Resolver)
    requires g1 == "/uploads/g1.jpg" && g2 == "/uploads/g2.jpg"
    requires ToAbsoluteUrl(origin, g1, resolve) != "" && ToAbsoluteUrl(origin, g2, resolve) != ""
    ensures ExtractMediaUrls(
              Obj(map["data" := Arr([
                Obj(map["id" := Num(1), "attributes" := Obj(map["url" := Str(g1)])]),
                Obj(map["id" := Num(2), "url" := Str(g2)])])]), origin, resolve)
         == Some([ToAbsoluteUrl(origin, g1, resolve), ToAbsoluteUrl(origin, g2, resolve)])
  {
    var i1 := Obj(map["id" := Num(1), "attributes" := Obj(map["url" := Str(g1)])]);
    var i2 := Obj(map["id" := Num(2), "url" := Str(g2)]);
    assert OwnUrl(i1) == Some(g1) by {
      assert Get(i1, "url") == Undefined;
    }
    assert OwnUrl(i2) == Some(g2);
    TwoMediaUrls(i1, i2, origin, resolve);
    GalleryOfItems([i1, i2], origin, resolve);
  }

  /** Two items with a URL each give those two URLs, in order. */
  lemma TwoMediaUrls(i1: Value, i2: Value, origin: string, resolve: Resolver)
    requires ExtractMediaUrl(i1, origin, resolve).Some? && ExtractMediaUrl(i1, origin, resolve).value != ""
    requires ExtractMediaUrl(i2, origin, resolve).Some? && ExtractMediaUrl(i2, origin, resolve).value != ""
    ensures MediaUrlsOf([i1, i2], origin, resolve)
         == [ExtractMediaUrl(i1, origin, resolve).value, ExtractMediaUrl(i2, origin, resolve).value]
  {
    var items := [i1, i2];
    assert items[1..][1..] == [];
    assert MediaUrlsOf(items[1..], origin, resolve) == [ExtractMediaUrl(i2, origin, resolve).value];
  }

  /** `{data: items}` with at least one URL among the items lists the items' URLs. */
  lemma GalleryOfItems(items: seq<Value>, origin: string, resolve: Resolver)
    requires MediaUrlsOf(items, origin, resolve) != []
    ensures ExtractMediaUrls(Obj(map["data" := Arr(items)]), origin, resolve) == Some(MediaUrlsOf(items, origin, resolve))
  {
    var v := Obj(map["data" := Arr(items)]);
    assert Get(v, "data") == Arr(items);
  }

  // ---- entity normalization ----

  /** `seo.keywords.split(",").map((v) => v.trim()).filter(Boolean)`. */
  function SplitKeywords(s: string): (r: seq<string>)
    ensures forall k :: 0 <= k < |r| ==> r[k] != ""
  {
    NonEmpty(TrimAll(Split(s, ',')))
  }

  /** Every keyword is trimmed and has no comma in it. */
  lemma SplitKeywordsClean(s: string)
    ensures forall k :: 0 <= k < |SplitKeywords(s)| ==> IsTrimmed(SplitKeywords(s)[k]) && ',' !in SplitKeywords(s)[k]
  {
    var pieces := Split(s, ',');
    var trimmed := TrimAll(pieces);
    forall k | 0 <= k < |SplitKeywords(s)| ensures IsTrimmed(SplitKeywords(s)[k]) && ',' !in SplitKeywords(s)[k] {
      var j :| 0 <= j < |trimmed| && trimmed[j] == SplitKeywords(s)[k];
      TrimKeepsMissing(pieces[j], ',');
    }
  }

  lemma {:induction false} TrimKeepsMissing(s: string, c: char)
    requires c !in s
    ensures c !in Trim(s)
  {
    var a, b := TrimExact(s);
  }

  /**
   * A comma-joined list of trimmed, non-empty keywords without commas splits back into that list.
   */
  lemma {:induction false} SplitKeywordsJoin(keywords: seq<string>)
    requires |keywords| >= 1
    requires forall k :: 0 <= k < |keywords| ==> keywords[k] != "" && IsTrimmed(keywords[k]) && ',' !in keywords[k]
    ensures SplitKeywords(Join(keywords, ",")) == keywords
  {
    SplitJoin(keywords, ',');
    assert Join(keywords, ",") == Join(keywords, [',']);
    assert TrimAll(keywords) == keywords by {
      forall k | 0 <= k < |keywords| ensures Trim(keywords[k]) == keywords[k] {
        TrimOfTrimmed(keywords[k]);
      }
    }
    NonEmptyOfNonEmpty(keywords);
  }

  /** `typeof v[a] === "string" ? v[a] : typeof v[b] === "string" ? v[b] : undefined`. */
  function StringOr(v: Value, a: string, b: string): (r: Option<string>)
    ensures Get(v, a).Str? ==> r == Some(Get(v, a).s)
    ensures !Get(v, a).Str? ==> r == GetString(v, b)
  {
    if GetString(v, a).Some? then GetString(v, a) else GetString(v, b)
  }

  /** The flattened SEO object `normalizeEntity` stores under `seo`. */
  function SeoBlock(seo: Value, origin: string, resolve: Resolver): (r: map<string, Value>)
    ensures r.Keys == {"title", "description", "keywords", "canonical", "imageUrl"}
  {
    var keywords := GetString(seo, "keywords");
    var image := ExtractMediaUrl(Coalesce(Get(seo, "image"), Get(seo, "metaImage")), origin, resolve);
    map[
      "title" := OptionValue(StringOr(seo, "title", "metaTitle")),
      "description" := OptionValue(StringOr(seo, "description", "metaDescription")),
      "keywords" := (if keywords.Some? then Arr(StrValues(SplitKeywords(keywords.value))) else Undefined),
      "canonical" := OptionValue(GetString(seo, "canonical")),
      "imageUrl" := OptionValue(image)
    ]
  }

  function StrValues(ss: seq<string>): (r: seq<Value>)
    ensures |r| == |ss|
    ensures forall k :: 0 <= k < |r| ==> r[k] == Str(ss[k])
  {
    if ss == [] then [] else [Str(ss[0])] + StrValues(ss[1..])
  }

  /** `entity.attributes` when it is a truthy object, otherwise the entity itself. */
  function Attributes(entity: map<string, Value>): Value {
    var a := Get(Obj(entity), "attributes");
    if Truthy(a) && IsObjectType(a) then a else Obj(entity)
  }

  /** The keys `normalizeEntity` may rewrite or add; the other attributes are copied as they are. */
  predicate Rewritten(k: string) {
    k in {"image", "gallery", "seo", "seoTitle", "seoDescription"}
  }

  /** What the `image` step makes of an image: its URL when it is truthy and one is found, else the image as it is. */
  function ImageStep(image: Value, origin: string, resolve: Resolver): Value {
    var url := ExtractMediaUrl(image, origin, resolve);
    if Truthy(image) && url.Some? && url.value != "" then Str(url.value) else image
  }

  /** What the `gallery` step makes of a gallery: its URL list when it is truthy and has one, else the gallery as it is. */
  function GalleryStep(gallery: Value, origin: string, resolve: Resolver): Value {
    var urls := ExtractMediaUrls(gallery, origin, resolve);
    if Truthy(gallery) && urls.Some? then Arr(StrValues(urls.value)) else gallery
  }

  /**
   * The `seo` step took `before` to `after`: a truthy object `seo` is flattened and fills in the
   * SEO title and description that are not set; any other `seo` leaves the three fields alone.
   */
  predicate SeoStepped(before: Value, after: Value, origin: string, resolve: Resolver) {
    var seo := Get(before, "seo");
    if Truthy(seo) && IsObjectType(seo) then
      && Get(after, "seo") == Obj(SeoBlock(seo, origin, resolve))
      && Get(after, "seoTitle") == Fallback(Get(before, "seoTitle"), StringOr(seo, "title", "metaTitle"))
      && Get(after, "seoDescription") == Fallback(Get(before, "seoDescription"), StringOr(seo, "description", "metaDescription"))
    else
      && Get(after, "seo") == seo
      && Get(after, "seoTitle") == Get(before, "seoTitle")
      && Get(after, "seoDescription") == Get(before, "seoDescription")
  }

  /** The `image` step: a truthy image whose URL is found becomes that URL. */
  method RewriteImage(m: map<string, Value>, origin: string, resolve: Resolver) returns (r: map<string, Value>)
    ensures r.Keys == m.Keys
    ensures forall k :: k in m && k != "image" ==> r[k] == m[k]
    ensures forall k :: k != "image" ==> Get(Obj(r), k) == Get(Obj(m), k)
    ensures Get(Obj(r), "image") == ImageStep(Get(Obj(m), "image"), origin, resolve)
  {
    r := m;
    var image := Get(Obj(m), "image");
    if Truthy(image) {
      var url := ExtractMediaUrl(image, origin, resolve);
      if url.Some? && url.value != "" {
        r := r["image" := Str(url.value)];
      }
    }
  }

  /** The `gallery` step: a truthy gallery with at least one URL becomes the list of its URLs. */
  method RewriteGallery(m: map<string, Value>, origin: string, resolve: Resolver) returns (r: map<string, Value>)
    ensures r.Keys == m.Keys
    ensures forall k :: k in m && k != "gallery" ==> r[k] == m[k]
    ensures forall k :: k != "gallery" ==> Get(Obj(r), k) == Get(Obj(m), k)
    ensures Get(Obj(r), "gallery") == GalleryStep(Get(Obj(m), "gallery"), origin, resolve)
  {
    r := m;
    var gallery := Get(Obj(m), "gallery");
    if Truthy(gallery) {
      var urls := ExtractMediaUrls(gallery, origin, resolve);
      if urls.Some? {
        r := r["gallery" := Arr(StrValues(urls.value))];
      }
    }
  }

  /** The SEO title or description to copy onto the entity: the SEO block's, unless the entity has a truthy one. */
  function Fallback(current: Value, fromSeo: Option<string>): (r: Value)
    ensures Truthy(current) ==> r == current
    ensures !Truthy(current) && fromSeo.Some? && fromSeo.value != "" ==> r == Str(fromSeo.value)
    ensures !Truthy(current) && (fromSeo.None? || fromSeo.value == "") ==> r == current
  {
    if fromSeo.Some? && fromSeo.value != "" && !Truthy(current) then Str(fromSeo.value) else current
  }

  /** Copies the SEO block's text onto `key` when the object has no truthy value there. */
  method FillIn(m: map<string, Value>, key: string, fromSeo: Option<string>) returns (r: map<string, Value>)
    ensures m.Keys <= r.Keys <= m.Keys + {key}
    ensures forall k :: k in m && k != key ==> r[k] == m[k]
    ensures forall k :: k != key ==> Get(Obj(r), k) == Get(Obj(m), k)
    ensures Get(Obj(r), key) == Fallback(Get(Obj(m), key), fromSeo)
  {
    r := m;
    if fromSeo.Some? && fromSeo.value != "" && !Truthy(Get(Obj(m), key)) {
      r := r[key := Str(fromSeo.value)];
    }
  }

  /** The `seo` step: a truthy object `seo` is flattened, and fills in `seoTitle`/`seoDescription` that are not set. */
  method RewriteSeo(m: map<string, Value>, origin: string, resolve: Resolver) returns (r: map<string, Value>)
    ensures m.Keys <= r.Keys <= m.Keys + {"seoTitle", "seoDescription"}
    ensures forall k :: k in m && k !in {"seo", "seoTitle", "seoDescription"} ==> r[k] == m[k]
    ensures forall k :: k != "seo" && k != "seoTitle" && k != "seoDescription" ==> Get(Obj(r), k) == Get(Obj(m), k)
    ensures SeoStepped(Obj(m), Obj(r), origin, resolve)
    ensures !(Truthy(Get(Obj(m), "seo")) && IsObjectType(Get(Obj(m), "seo"))) ==> r == m
  {
    r := m;
    var seo := Get(Obj(m), "seo");
    if Truthy(seo) && IsObjectType(seo) {
      assert "seo" in m;
      SeoKeysDistinct("seo", "seoTitle", "seoDescription");
      var withBlock := m["seo" := Obj(SeoBlock(seo, origin, resolve))];
      assert Get(Obj(withBlock), "seoTitle") == Get(Obj(m), "seoTitle");
      assert Get(Obj(withBlock), "seoDescription") == Get(Obj(m), "seoDescription");
      var withTitle := FillIn(withBlock, "seoTitle", StringOr(seo, "title", "metaTitle"));
      r := FillIn(withTitle, "seoDescription", StringOr(seo, "description", "metaDescription"));
    }
  }

  lemma SeoKeysDistinct(seo: string, title: string, description: string)
    requires seo == "seo" && title == "seoTitle" && description == "seoDescription"
    ensures seo != title && seo != description && title != description
  {
    assert title[3] != description[3];
  }

  lemma SeedField(entity: map<string, Value>, seed: map<string, Value>, key: string)
    requires seed == Spread(map["id" := Str(ToJsString(Get(Obj(entity), "id")))], Attributes(entity))
    requires key != "id"
    ensures Get(Obj(seed), key) == Get(Attributes(entity), key)
  {
  }

  /** The three steps in order, on the object built from the attributes. */
  method RewriteFields(m: map<string, Value>, origin: string, resolve: Resolver) returns (r: map<string, Value>)
    ensures m.Keys <= r.Keys <= m.Keys + {"seoTitle", "seoDescription"}
    ensures forall k :: k in m && !Rewritten(k) ==> r[k] == m[k]
    ensures Get(Obj(r), "image") == ImageStep(Get(Obj(m), "image"), origin, resolve)
    ensures Get(Obj(r), "gallery") == GalleryStep(Get(Obj(m), "gallery"), origin, resolve)
    ensures SeoStepped(Obj(m), Obj(r), origin, resolve)
  {
    var withImage := RewriteImage(m, origin, resolve);
    assert Get(Obj(withImage), "gallery") == Get(Obj(m), "gallery");
    var withGallery := RewriteGallery(withImage, origin, resolve);
    assert Get(Obj(withGallery), "image") == Get(Obj(withImage), "image");
    assert Get(Obj(withGallery), "seo") == Get(Obj(m), "seo");
    assert Get(Obj(withGallery), "seoTitle") == Get(Obj(m), "seoTitle");
    assert Get(Obj(withGallery), "seoDescription") == Get(Obj(m), "seoDescription");
    r := RewriteSeo(withGallery, origin, resolve);
    assert Get(Obj(r), "image") == Get(Obj(withGallery), "image");
    assert Get(Obj(r), "gallery") == Get(Obj(withGallery), "gallery");
  }

  /** `normalizeEntity(entity, origin)`: the attributes with `id` in front, then the three steps in order. */
  method NormalizeEntity(entity: map<string, Value>, origin: string, resolve: Resolver) returns (normalized: map<string, Value>)
    // `id` is String(entity.id), unless the attributes carry their own `id`
    ensures "id" in normalized
    ensures "id" !in OwnEntries(Attributes(entity)) ==> normalized["id"] == Str(ToJsString(Get(Obj(entity), "id")))
    // every attribute is present, and all but the rewritten ones are copied unchanged
    ensures OwnEntries(Attributes(entity)).Keys + {"id"} <= normalized.Keys
    ensures normalized.Keys <= OwnEntries(Attributes(entity)).Keys + {"id", "seoTitle", "seoDescription"}
    ensures forall k :: k in OwnEntries(Attributes(entity)) && !Rewritten(k) ==> normalized[k] == OwnEntries(Attributes(entity))[k]
    // a truthy `image` becomes its URL when one is found, and is kept otherwise
    ensures Get(Obj(normalized), "image") == ImageStep(Get(Attributes(entity), "image"), origin, resolve)
    // a truthy `gallery` becomes its URL list when it has one, and is kept otherwise
    ensures Get(Obj(normalized), "gallery") == GalleryStep(Get(Attributes(entity), "gallery"), origin, resolve)
    // a truthy object `seo` is flattened and fills in the entity's own SEO title and description when they are not set
    ensures SeoStepped(Attributes(entity), Obj(normalized), origin, resolve)
  {
    var attrs := Attributes(entity);
    var seed := Spread(map["id" := Str(ToJsString(Get(Obj(entity), "id")))], attrs);
    SeedField(entity, seed, "image");
    SeedField(entity, seed, "gallery");
    SeedField(entity, seed, "seo");
    SeedField(entity, seed, "seoTitle");
    SeedField(entity, seed, "seoDescription");
    normalized := RewriteFields(seed, origin, resolve);
  }

  // ---- query pairs ----

  /** The pairs `encodeStrapiQuery` appends: those with a defined value, as `String(value)`, in order. */
  function DefinedPairs(params: seq<(string, Value)>): (r: seq<(string, string)>)
    ensures |r| <= |params|
  {
    if params == [] then []
    else
      var last := params[|params| - 1];
      DefinedPairs(params[..|params| - 1]) + (if last.1.Undefined? then [] else [(last.0, ToJsString(last.1))])
  }

  /** With no `undefined` value, every pair is kept. */
  lemma {:induction false} DefinedPairsAll(params: seq<(string, Value)>)
    requires forall k :: 0 <= k < |params| ==> !params[k].1.Undefined?
    ensures |DefinedPairs(params)| == |params|
    ensures forall k :: 0 <= k < |params| ==> DefinedPairs(params)[k] == (params[k].0, ToJsString(params[k].1))
  {
    if params != [] {
      DefinedPairsAll(params[..|params| - 1]);
    }
  }

  /**
   * `encodeStrapiQuery(params)`: "" when no pair has a defined value, otherwise `?` and a query
   * string that parses back to exactly the defined pairs, in order.
   */
  method EncodeStrapiQuery(params: seq<(string, Value)>) returns (r: string)
    ensures r == "" <==> DefinedPairs(params) == []
    ensures r != "" ==> r[0] == '?' && ParsePairs(r[1..]) == Some(DefinedPairs(params))
    ensures r != "" ==> r == "?" + SerializePairs(DefinedPairs(params))
  {
    var sp: seq<(string, string)> := [];
    var i := 0;
    while i < |params|
      invariant 0 <= i <= |params|
      invariant sp == DefinedPairs(params[..i])
    {
      var (key, value) := params[i];
      assert params[..i + 1][..i] == params[..i];
      if !value.Undefined? {
        sp := sp + [(key, ToJsString(value))];
      }
      i := i + 1;
    }
    assert params[..i] == params;
    var qs := SerializePairs(sp);
    SerializeEmptyIff(sp);
    SerializeRoundTrip(sp);
    if qs == "" {
      r := "";
    } else {
      r := "?" + qs;
      assert r[1..] == qs;
    }
  }

  // ---- content types ----

  datatype ContentType = Exams | Results | Institutions | Holidays | Restaurants | FashionStores | ShoppingCentres | Places | Events

  /** `contentTypeConfig[contentType].path`. */
  function Path(ct: ContentType): string {
    match ct
    case Exams => "/exams"
    case Results => "/results"
    case Institutions => "/institutions"
    case Holidays => "/holidays"
    case Restaurants => "/restaurants"
    case FashionStores => "/fashion-stores"
    case ShoppingCentres => "/shopping-centres"
    case Places => "/places"
    case Events => "/events"
  }

  /** `contentTypeConfig[contentType].searchFields`. */
  function SearchFields(ct: ContentType): (fields: seq<string>)
    ensures |fields| >= 4
  {
    match ct
    case Exams => ["titleHindi", "title", "organizationHindi", "organization"]
    case Results => ["titleHindi", "title", "organizationHindi", "organization"]
    case Institutions => ["nameHindi", "name", "city", "district", "state"]
    case Holidays => ["nameHindi", "name", "descriptionHindi", "description"]
    case Restaurants => ["nameHindi", "name", "city", "district", "descriptionHindi", "description"]
    case FashionStores => ["nameHindi", "name", "city", "district", "descriptionHindi", "description"]
    case ShoppingCentres => ["nameHindi", "name", "city", "district", "descriptionHindi", "description"]
    case Places => ["nameHindi", "name", "city", "district", "descriptionHindi", "description"]
    case Events => ["titleHindi", "title", "city", "district", "venueHindi", "venue", "descriptionHindi", "description"]
  }

  /** Every content type has its own path. */
  lemma PathsDistinct(a: ContentType, b: ContentType)
    requires a != b
    ensures Path(a) != Path(b)
  {
    assert Path(a)[1..3] != Path(b)[1..3] || |Path(a)| != |Path(b)| || Path(a)[3..] != Path(b)[3..];
  }

  // ---- list and slug queries ----

  /** The four pairs every list query starts with. */
  function ListHead(p: QueryParams): seq<(string, Value)> {
    [("publicationState", Str("live")),
     ("pagination[withCount]", Bool(true)),
     ("pagination[start]", Num(p.offset.GetOr(0))),
     ("pagination[limit]", Num(p.limit.GetOr(10)))]
  }

  /** `sort[0]`, present only when `orderBy` is set. */
  function SortPairs(p: QueryParams): seq<(string, Value)> {
    if IsSet(p.orderBy) then [("sort[0]", Str(p.orderBy.value + ":" + OrElse(p.order, "desc")))] else []
  }

  /**
   * The twelve guarded filter pushes, in source order: whether the filter applies, its key and
   * its value. Text criteria apply when set and non-empty, `featured`/`popular` when defined.
   */
  function FilterTable(p: QueryParams): (t: seq<(bool, string, Value)>)
    ensures |t| == 12
  {
    [(IsSet(p.category), "filters[category][$eq]", Str(p.category.GetOr(""))),
     (IsSet(p.subcategory), "filters[subcategory][$eq]", Str(p.subcategory.GetOr(""))),
     (IsSet(p.kind), "filters[type][$eq]", Str(p.kind.GetOr(""))),
     (IsSet(p.city), "filters[city][$eq]", Str(p.city.GetOr(""))),
     (IsSet(p.district), "filters[district][$eq]", Str(p.district.GetOr(""))),
     (IsSet(p.status), "filters[status][$eq]", Str(p.status.GetOr(""))),
     (IsSet(p.applicationStatus), "filters[applicationStatus][$eq]", Str(p.applicationStatus.GetOr(""))),
     (IsSet(p.resultStatus), "filters[resultStatus][$eq]", Str(p.resultStatus.GetOr(""))),
     (p.featured.Some?, "filters[isFeatured][$eq]", Bool(p.featured.GetOr(false))),
     (p.popular.Some?, "filters[isPopular][$eq]", Bool(p.popular.GetOr(false))),
     (IsSet(p.dateFrom), "filters[date][$gte]", Str(p.dateFrom.GetOr(""))),
     (IsSet(p.dateTo), "filters[date][$lte]", Str(p.dateTo.GetOr("")))]
  }

  /** The pairs of the entries that apply, in order. */
  function Applied(t: seq<(bool, string, Value)>): (r: seq<(string, Value)>)
    ensures |r| <= |t|
  {
    if t == [] then []
    else
      var last := t[|t| - 1];
      Applied(t[..|t| - 1]) + (if last.0 then [(last.1, last.2)] else [])
  }

  /** A pair is pushed exactly when its entry applies: every pushed pair comes from an applying entry, and every applying entry is pushed. */
  lemma {:induction false} AppliedExactly(t: seq<(bool, string, Value)>)
    ensures forall k :: 0 <= k < |Applied(t)| ==> exists j :: 0 <= j < |t| && t[j].0 && Applied(t)[k] == (t[j].1, t[j].2)
    ensures forall j :: 0 <= j < |t| && t[j].0 ==> (t[j].1, t[j].2) in Applied(t)
  {
    if t == [] {
      assert Applied(t) == [];
    } else {
      var init := t[..|t| - 1];
      var last := t[|t| - 1];
      AppliedExactly(init);
      var r := Applied(t);
      var extra := if last.0 then [(last.1, last.2)] else [];
      assert r == Applied(init) + extra;
      forall k | 0 <= k < |r| ensures exists j :: 0 <= j < |t| && t[j].0 && r[k] == (t[j].1, t[j].2) {
        if k < |Applied(init)| {
          assert Applied(init)[k] == r[k];
          assert exists j :: 0 <= j < |init| && init[j].0 && Applied(init)[k] == (init[j].1, init[j].2);
          var j :| 0 <= j < |init| && init[j].0 && Applied(init)[k] == (init[j].1, init[j].2);
          assert t[j] == init[j];
        } else {
          var j := |t| - 1;
          assert 0 <= j < |t| && t[j].0 && r[k] == (t[j].1, t[j].2);
        }
      }
      forall j | 0 <= j < |t| && t[j].0 ensures (t[j].1, t[j].2) in r {
        if j < |init| {
          assert init[j] == t[j];
          assert (t[j].1, t[j].2) in Applied(init);
        } else {
          assert r[|r| - 1] == (t[j].1, t[j].2);
        }
      }
      assert forall k :: 0 <= k < |Applied(t)| ==> exists j :: 0 <= j < |t| && t[j].0 && Applied(t)[k] == (t[j].1, t[j].2);
    }
  }

  function FilterPairs(p: QueryParams): seq<(string, Value)> {
    Applied(FilterTable(p))
  }

  /** The key of the `index`-th search alternative. */
  function OrKey(index: nat, field: string): string {
    "filters[$or][" + NatToString(index) + "][" + field + "][$containsi]"
  }

  function SearchPairs(fields: seq<string>, search: string): (r: seq<(string, Value)>)
    ensures |r| == |fields|
    ensures forall i :: 0 <= i < |fields| ==> r[i] == (OrKey(i, fields[i]), Str(search))
  {
    seq(|fields|, i requires 0 <= i < |fields| => (OrKey(i, fields[i]), Str(search)))
  }

  /** The search pairs when a search term is set. */
  function SearchPart(ct: ContentType, p: QueryParams): seq<(string, Value)> {
    if IsSet(p.search) then SearchPairs(SearchFields(ct), p.search.value) else []
  }

  /** The query pairs of `buildListQuery(contentType, params)`, in push order; every content type populates its image. */
  function ListQuery(ct: ContentType, p: QueryParams): seq<(string, Value)> {
    ListHead(p) + SortPairs(p) + FilterPairs(p) + SearchPart(ct, p) + [("populate[image]", Str("*"))]
  }

  /** The twelve guarded filter pushes of `buildListQuery`, in order. */
  method PushFilters(query: seq<(string, Value)>, table: seq<(bool, string, Value)>) returns (r: seq<(string, Value)>)
    ensures r == query + Applied(table)
  {
    r := query;
    for i := 0 to |table|
      invariant r == query + Applied(table[..i])
    {
      assert table[..i + 1][..i] == table[..i];
      var (applies, key, value) := table[i];
      if applies {
        r := r + [(key, value)];
      }
    }
    assert table[..|table|] == table;
  }

  /** `fields.forEach((field, index) => query.push([`filters[$or][${index}][${field}][$containsi]`, search]))`. */
  method PushSearch(query: seq<(string, Value)>, fields: seq<string>, search: string) returns (r: seq<(string, Value)>)
    ensures r == query + SearchPairs(fields, search)
  {
    r := query;
    for index := 0 to |fields|
      invariant r == query + SearchPairs(fields[..index], search)
    {
      r := r + [(OrKey(index, fields[index]), Str(search))];
    }
    assert fields[..|fields|] == fields;
  }

  /** `buildListQuery(contentType, params)`: pushes the pairs one at a time. */
  method BuildListQuery(ct: ContentType, p: QueryParams) returns (query: seq<(string, Value)>)
    ensures query == ListQuery(ct, p)
  {
    var limit := p.limit.GetOr(10);
    var offset := p.offset.GetOr(0);
    query := [];
    query := query + [("publicationState", Str("live"))];
    query := query + [("pagination[withCount]", Bool(true))];
    query := query + [("pagination[start]", Num(offset))];
    query := query + [("pagination[limit]", Num(limit))];
    if IsSet(p.orderBy) {
      var order := OrElse(p.order, "desc");
      query := query + [("sort[0]", Str(p.orderBy.value + ":" + order))];
    }
    assert query == ListHead(p) + SortPairs(p);
    query := PushFilters(query, FilterTable(p));
    if IsSet(p.search) {
      query := PushSearch(query, SearchFields(ct), p.search.value);
    }
    query := query + [("populate[image]", Str("*"))];
  }

  /** A list query starts with the publication state and the paging pairs, `start` defaulting to 0 and `limit` to 10. */
  lemma ListQueryStart(ct: ContentType, p: QueryParams)
    ensures ListQuery(ct, p)[..4] == [("publicationState", Str("live")), ("pagination[withCount]", Bool(true)),
                                     ("pagination[start]", Num(if p.offset.Some? then p.offset.value else 0)),
                                     ("pagination[limit]", Num(if p.limit.Some? then p.limit.value else 10))]
  {
    assert ListQuery(ct, p)[..4] == ListHead(p);
  }

  /** A list query ends with `populate[image]=*`. */
  lemma ListQueryEnd(ct: ContentType, p: QueryParams)
    ensures ListQuery(ct, p)[|ListQuery(ct, p)| - 1] == ("populate[image]", Str("*"))
  {
  }

  /** The value of the first pair with `key`. */
  function Lookup(q: seq<(string, Value)>, key: string): (r: Option<Value>)
    ensures r.Some? <==> exists k :: 0 <= k < |q| && q[k].0 == key
  {
    if q == [] then None
    else if q[0].0 == key then Some(q[0].1)
    else
      var r := Lookup(q[1..], key);
      assert forall k :: 1 <= k < |q| ==> q[k] == q[1..][k - 1];
      r
  }

  /** Every key of `q` starts with a character other than `c`. */
  predicate KeysAvoidInitial(q: seq<(string, Value)>, c: char) {
    forall k :: 0 <= k < |q| ==> q[k].0 != "" && q[k].0[0] != c
  }

  lemma FilterKeysAvoid(p: QueryParams)
    ensures KeysAvoidInitial(FilterPairs(p), 's')
  {
    var t := FilterTable(p);
    AppliedExactly(t);
    assert forall j :: 0 <= j < |t| ==> t[j].1[0] == 'f';
  }

  /** The pairs after `sort[0]`: the filters, the search and the image population. */
  function ListTail(ct: ContentType, p: QueryParams): seq<(string, Value)> {
    FilterPairs(p) + SearchPart(ct, p) + [("populate[image]", Str("*"))]
  }

  lemma ListQueryShape(ct: ContentType, p: QueryParams)
    ensures ListQuery(ct, p) == ListHead(p) + SortPairs(p) + ListTail(ct, p)
  {
  }

  lemma TailKeysAvoid(ct: ContentType, p: QueryParams)
    ensures KeysAvoidInitial(ListTail(ct, p), 's')
  {
    FilterKeysAvoid(p);
    AvoidConcat(FilterPairs(p), SearchPart(ct, p) + [("populate[image]", Str("*"))], 's');
    assert ListTail(ct, p) == FilterPairs(p) + (SearchPart(ct, p) + [("populate[image]", Str("*"))]);
  }

  /** With `orderBy` set, `sort[0]` comes right after the paging pairs. */
  lemma ListQuerySortAt(ct: ContentType, p: QueryParams)
    requires IsSet(p.orderBy)
    ensures ListQuery(ct, p)[4] == ("sort[0]", Str(p.orderBy.value + ":" + OrElse(p.order, "desc")))
  {
    ListQueryShape(ct, p);
    assert ListQuery(ct, p) == ListHead(p) + (SortPairs(p) + ListTail(ct, p));
  }

  /** `sort[0]` is present exactly when `orderBy` is set. */
  lemma ListQuerySort(ct: ContentType, p: QueryParams)
    ensures Lookup(ListQuery(ct, p), "sort[0]").Some? <==> IsSet(p.orderBy)
  {
    if IsSet(p.orderBy) {
      ListQuerySortAt(ct, p);
      assert ListQuery(ct, p)[4].0 == "sort[0]";
    } else {
      ListQueryShape(ct, p);
      assert ListQuery(ct, p) == ListHead(p) + ListTail(ct, p);
      HeadKeysAvoid(p);
      TailKeysAvoid(ct, p);
      AvoidConcat(ListHead(p), ListTail(ct, p), 's');
      AvoidInitialNoLookup(ListQuery(ct, p), "sort[0]");
    }
  }

  lemma HeadKeysAvoid(p: QueryParams)
    ensures KeysAvoidInitial(ListHead(p), 's')
  {
  }

  lemma AvoidConcat(a: seq<(string, Value)>, b: seq<(string, Value)>, c: char)
    requires KeysAvoidInitial(a, c) && KeysAvoidInitial(b, c)
    ensures KeysAvoidInitial(a + b, c)
  {
    assert forall k :: |a| <= k < |a + b| ==> (a + b)[k] == b[k - |a|];
  }

  /** No key starting with another character is `key`. */
  lemma AvoidInitialNoLookup(q: seq<(string, Value)>, key: string)
    requires key != "" && KeysAvoidInitial(q, key[0])
    ensures Lookup(q, key).None?
  {
  }

  /** With a search term, one `$or` alternative per search field follows the filters, indexed from 0. */
  lemma ListQuerySearch(ct: ContentType, p: QueryParams, i: nat)
    requires IsSet(p.search) && i < |SearchFields(ct)|
    ensures var at := |ListHead(p) + SortPairs(p) + FilterPairs(p)| + i;
            at < |ListQuery(ct, p)| && ListQuery(ct, p)[at] == (OrKey(i, SearchFields(ct)[i]), Str(p.search.value))
  {
  }

  /** Without a search term, no `$or` alternative is pushed. */
  lemma ListQueryNoSearch(ct: ContentType, p: QueryParams)
    requires !IsSet(p.search)
    ensures |ListQuery(ct, p)| == |ListHead(p) + SortPairs(p) + FilterPairs(p)| + 1
  {
  }

  /** A filter pair whose criterion is given is in the list query (`AppliedExactly` gives the converse). */
  lemma ListQueryFilters(ct: ContentType, p: QueryParams, j: nat)
    requires j < 12
    ensures FilterTable(p)[j].0 ==> (FilterTable(p)[j].1, FilterTable(p)[j].2) in ListQuery(ct, p)
  {
    var t := FilterTable(p);
    AppliedExactly(t);
    if t[j].0 {
      var f := FilterPairs(p);
      var i :| 0 <= i < |f| && f[i] == (t[j].1, t[j].2);
      var q := ListQuery(ct, p);
      assert q == (ListHead(p) + SortPairs(p)) + f + (SearchPart(ct, p) + [("populate[image]", Str("*"))]);
      assert q[|ListHead(p) + SortPairs(p)| + i] == f[i];
    }
  }

  /** No list query pair is `undefined`, so the encoded query carries every pair. */
  lemma ListQueryAllDefined(ct: ContentType, p: QueryParams)
    ensures forall k :: 0 <= k < |ListQuery(ct, p)| ==> !ListQuery(ct, p)[k].1.Undefined?
  {
    var t := FilterTable(p);
    AppliedExactly(t);
    assert forall k :: 0 <= k < |FilterPairs(p)| ==> !FilterPairs(p)[k].1.Undefined?;
  }

  /** `buildSlugQuery(contentType, slug)`. */
  method BuildSlugQuery(slug: string) returns (query: seq<(string, Value)>)
    ensures |query| == 8
    ensures query[0] == ("publicationState", Str("live")) && query[1] == ("filters[slug][$eq]", Str(slug))
    ensures query[2..5] == [("pagination[withCount]", Bool(false)), ("pagination[start]", Num(0)), ("pagination[limit]", Num(1))]
    ensures query[5..] == [("populate[image]", Str("*")), ("populate[gallery]", Str("*")), ("populate[seo]", Str("*"))]
  {
    query := [];
    query := query + [("publicationState", Str("live"))];
    query := query + [("filters[slug][$eq]", Str(slug))];
    query := query + [("pagination[withCount]", Bool(false))];
    query := query + [("pagination[start]", Num(0))];
    query := query + [("pagination[limit]", Num(1))];
    query := query + [("populate[image]", Str("*"))];
    query := query + [("populate[gallery]", Str("*"))];
    query := query + [("populate[seo]", Str("*"))];
    assert query == [("publicationState", Str("live")), ("filters[slug][$eq]", Str(slug)),
                     ("pagination[withCount]", Bool(false)), ("pagination[start]", Num(0)), ("pagination[limit]", Num(1)),
                     ("populate[image]", Str("*")), ("populate[gallery]", Str("*")), ("populate[seo]", Str("*"))];
  }
}
