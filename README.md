# Rampur News front end: a verified model of its content and admin logic

Rampur News is a Hindi news site built with Next.js. It reads its articles from a CMS, which is
Strapi by default, with a REST backend, WordPress or an in-memory mock as alternatives.
It also reads "extended" content from the CMS: exams, results, institutions, holidays,
restaurants, fashion stores, shopping centres, places and events. Editors sign in through two
API routes that ask Strapi who they are.

This project models the deterministic logic behind that site and proves what the code promises.
Each Dafny module follows one source file:

- `StrapiExtended` (src/services/cms/strapiExtendedProvider.ts). It covers:
  - base-URL normalization and media-URL resolution;
  - the recursive walk over Strapi's `{data: {attributes: {url}}}` media trees;
  - the flattening of an entity's attributes and its SEO block;
  - the ordered query pairs of list and slug requests, and their URL encoding.
- `ExtendedProvider` (src/services/cms/extendedProvider.ts). It covers:
  - filter-then-paginate and the mock store's filters;
  - lookup by slug and the upcoming-events selection;
  - create, update and delete on the store's arrays, each a `MockCollection` object;
  - the REST provider's query record, type remapping and result handling;
  - the provider cache, a `ProviderCache` object.
- `Cms` (src/services/cms/index.ts). It covers:
  - `normalizeStrapiBaseUrl` and the upload-file record;
  - the article query record;
  - the status rules of `fetchJson` and the fallback chain of `getArticles`;
  - the registry of provider instances, a `CmsRegistry` object.
- `TextUtils` (src/lib/utils.ts). It covers:
  - truncation and read time;
  - `uniq`, a loop over a set;
  - the keyword tokenizer and the category names;
  - the entity, mention, keyword and region parts of `deriveAiSeoSignals`.
- `NewsDetail` (src/views/NewsDetail.tsx). It covers the HTML escaper, the YouTube embed parser, reading time, related news, and the injection of related links after the first paragraph.
- `Seo` (src/components/SEO.tsx). It covers the keyword merge loop, the canonical URL, and the presence and fallbacks of each JSON-LD block.
- `AdminLogin` and `AdminMe` (src/app/api/admin/login/route.ts and src/app/api/admin/me/route.ts). They are the sign-in and session-check decision chains, including role normalization.
- `BuildConfig` (next.config.js). It covers the selection of the Strapi URL and the remote image patterns derived from it.

Shared modules hold what several files use:

- `Wrappers`: `Option` and `Result`.
- `Strings`: trim, split, join, `indexOf`, `toLowerCase` on ASCII and U+0130, and decimal printing.
- `Seqs`: JavaScript's `slice`, `filter`, `find`, stable sort, and `Math.floor`/`Math.ceil` of a quotient.
- `Json`: JavaScript values. It models truthiness, `||`, `??`, property access, `String(v)` and object spread.
- `Urls`: a parsed URL record.
- `FormEncoding`: UTF-8 percent-encoding, the `URLSearchParams` serializer and a parser for it.
- `ApiUrl`: `normalizeStrapiApiUrl`. The source repeats it in six files (the Strapi extended provider, the admin login and current-user routes, the two Strapi proxy routes, and next.config.js, whose copy first applies `String(value || "")`); it is defined here once.
- `CmsConfig`: the provider names and the configuration record.
- `ExtendedTypes`: the query parameters.

Some operations are outside what this model can interpret. Those operations are parameters of
the model functions:

- WHATWG URL parsing and resolution (`new URL`);
- date parsing and the clock;
- the Unicode character classes of the regular expressions;
- `stripHtmlToText` and the phrase extractors;
- signing and verifying the session token;
- every `fetch` and its reply.

Upstream replies are datatypes of status and body.

## Model

| member | source | states |
|---|---|---|
| ApiUrl.NormalizeApiUrl | src/services/cms/strapiExtendedProvider.ts:38-44 | The result is `""` exactly when the trimmed value without its trailing slashes is empty. Otherwise it is that value, or that value followed by `/api`. `/api` is appended exactly when that value is nonempty, does not end in `/api`, and is an `http(s)://` origin without a path. |
| ApiUrl.NormalizeIdempotent | src/services/cms/strapiExtendedProvider.ts:38-44 | Normalizing a result again changes nothing, provided the result does not end in whitespace. |
| ApiUrl.TrailingSlashIgnored | src/services/cms/strapiExtendedProvider.ts:39 | One extra trailing slash on a trimmed value gives the same result. |
| ApiUrl.OriginIsBare | src/services/cms/strapiExtendedProvider.ts:42 | `http://` followed by a host with no path counts as a bare origin, so `/api` is appended. |
| ApiUrl.LongerPathNotOrigin | src/services/cms/strapiExtendedProvider.ts:42 | A value with a path after the host is not a bare origin, whichever scheme length is tried. |
| ApiUrl.UnitTestBareOrigin | src/services/cms/strapiExtendedProvider.test.ts:6-7 | `http://localhost:1337`, with or without a trailing slash, becomes `http://localhost:1337/api`. |
| ApiUrl.UnitTestApiSuffix | src/services/cms/strapiExtendedProvider.test.ts:8-9 | `http://localhost:1337/api`, with or without a trailing slash, stays `http://localhost:1337/api`. |
| ApiUrl.UnitTestLongerPath | src/services/cms/strapiExtendedProvider.test.ts:10 | `http://localhost:1337/api/v1` is returned as it is. |
| ApiUrl.FirstNormalized | src/app/api/admin/login/route.ts:15-31 | The result is `None` exactly when no set candidate normalizes to a nonempty value. A chosen value is never empty. |
| ApiUrl.FirstNormalizedIsFirst | src/app/api/admin/login/route.ts:23-31 | The chosen value is the normalization of the first usable candidate. |
| StrapiExtended.GetOrigin | src/services/cms/strapiExtendedProvider.ts:46-53 | For a URL that does not parse, the result is `""`. Otherwise the result starts with the protocol and `//`, and the parsed URL's text is that start, the credentials, the rest of the result, then the path, search and hash. So the result is exactly `protocol//host`. |
| StrapiExtended.ToAbsoluteUrl | src/services/cms/strapiExtendedProvider.ts:55-64 | The URL is returned unchanged when it is empty or already `http(s)://`, when the origin is empty, or when resolution fails. Otherwise the result is the URL resolved against the origin. |
| StrapiExtended.ToAbsoluteIdempotent | src/services/cms/strapiExtendedProvider.ts:55-64 | Making a URL absolute twice gives the same result as once, for any idempotent resolver. |
| StrapiExtended.OwnUrl | src/services/cms/strapiExtendedProvider.ts:70-75 | A string `url` is preferred. Next comes a string `attributes.url`. Otherwise there is no URL. |
| StrapiExtended.ExtractMediaUrl | src/services/cms/strapiExtendedProvider.ts:66-87 | Only an object gives a URL. A nonempty own URL is made absolute against the origin. |
| StrapiExtended.FlatAndAttributeShapesAgree | src/services/cms/strapiExtendedProvider.ts:70-77 | `{url}` and `{attributes: {url}}` give the same URL. |
| StrapiExtended.DataWrapperTransparent | src/services/cms/strapiExtendedProvider.ts:79-86 | Wrapping a media value in `{data: x}` or in `{data: [x, ...]}` does not change its URL. |
| StrapiExtended.UnitTestImage | src/services/cms/strapiExtendedProvider.test.ts:20-39 | The unit test's image `{data: {attributes: {url: "/uploads/x.jpg"}}}` gives that path made absolute. |
| StrapiExtended.ExtractMediaUrls | src/services/cms/strapiExtendedProvider.ts:89-103 | A result is a nonempty list, and every URL in it is nonempty. |
| StrapiExtended.GalleryStartsWithCover | src/services/cms/strapiExtendedProvider.ts:81-99 | For `{data: [x, ...]}` whose first item gives a URL, the first URL of the list is the single URL of the value. |
| StrapiExtended.UrlsAgreeWithUrl | src/services/cms/strapiExtendedProvider.ts:93-102 | Without an array under `data` and without an own URL, the list form is the single URL of `extractMediaUrl` as a one-item list. |
| StrapiExtended.UnitTestGallery | src/services/cms/strapiExtendedProvider.test.ts:21-43 | The test gallery has one `{attributes: {url}}` item and one `{url}` item. It gives both URLs made absolute, in order. |
| StrapiExtended.SplitKeywordsClean | src/services/cms/strapiExtendedProvider.ts:128 | Every keyword of the split is nonempty, trimmed and free of commas. |
| StrapiExtended.SplitKeywordsJoin | src/services/cms/strapiExtendedProvider.ts:128 | Joining trimmed, nonempty, comma-free keywords with commas and splitting the result gives back the same list. |
| StrapiExtended.StringOr | src/services/cms/strapiExtendedProvider.ts:121-127 | The first field is used when it is a string. Otherwise the second is used when it is a string. Otherwise there is none. |
| StrapiExtended.SeoBlock | src/services/cms/strapiExtendedProvider.ts:121-136 | The flattened SEO block has exactly the keys title, description, keywords, canonical and imageUrl. |
| StrapiExtended.RewriteImage | src/services/cms/strapiExtendedProvider.ts:109-112 | A truthy image whose URL is found becomes that URL. Every other key is unchanged. |
| StrapiExtended.RewriteGallery | src/services/cms/strapiExtendedProvider.ts:114-117 | A truthy gallery with at least one URL becomes its URL list. Every other key is unchanged. |
| StrapiExtended.Fallback | src/services/cms/strapiExtendedProvider.ts:137-138 | The SEO text is copied only when it is truthy and the entity's own value is not. |
| StrapiExtended.FillIn | src/services/cms/strapiExtendedProvider.ts:137-138 | Only `key` may change. It takes the SEO text when it had no truthy value and the text is truthy. |
| StrapiExtended.RewriteSeo | src/services/cms/strapiExtendedProvider.ts:119-139 | A truthy object `seo` is flattened. An unset `seoTitle` takes the string `title` or `metaTitle`, and an unset `seoDescription` takes `description` or `metaDescription`. Any other `seo` leaves the object unchanged. Only `seo`, `seoTitle` and `seoDescription` can change. |
| StrapiExtended.RewriteFields | src/services/cms/strapiExtendedProvider.ts:109-139 | The image, gallery and SEO steps run in order. Keys other than the five rewritten ones keep their attribute values. |
| StrapiExtended.NormalizeEntity | src/services/cms/strapiExtendedProvider.ts:105-142 | `id` is `String(entity.id)` unless the attributes carry their own `id`. Fields come from `attributes` when it is a truthy object, else from the entity. The image, gallery and SEO steps apply. The other attributes are copied unchanged. |
| StrapiExtended.DefinedPairsAll | src/services/cms/strapiExtendedProvider.ts:146-149 | When no value is `undefined`, every pair is kept as `String(value)`, in order. |
| StrapiExtended.EncodeStrapiQuery | src/services/cms/strapiExtendedProvider.ts:144-152 | The result is `""` exactly when no pair has a defined value. Otherwise it is `?` followed by the serialization of the defined pairs, and that text parses back to exactly those pairs, in order. |
| FormEncoding.SerializeRoundTrip | src/services/cms/strapiExtendedProvider.ts:145-150 | Parsing the serialized query gives back exactly the appended pairs, in order. |
| FormEncoding.DecodeEncode | src/services/cms/strapiExtendedProvider.ts:148 | Percent-decoding the form encoding of any text gives that text back, including multi-byte UTF-8. |
| FormEncoding.SerializeEmptyIff | src/services/cms/strapiExtendedProvider.ts:150-151 | The serialization is empty exactly when there are no pairs. |
| StrapiExtended.SearchFields | src/services/cms/strapiExtendedProvider.ts:154-164 | Every content type has at least four search fields. |
| StrapiExtended.PathsDistinct | src/services/cms/strapiExtendedProvider.ts:154-164 | No two content types share a path. |
| StrapiExtended.AppliedExactly | src/services/cms/strapiExtendedProvider.ts:183-195 | A filter pair is pushed exactly when its entry applies, and with that entry's key and value. |
| StrapiExtended.PushFilters | src/services/cms/strapiExtendedProvider.ts:183-195 | The twelve guarded pushes append exactly the applying filter pairs, in source order. |
| StrapiExtended.PushSearch | src/services/cms/strapiExtendedProvider.ts:197-202 | One `filters[$or][i][field][$containsi]` pair is appended per search field, with `i` counting from 0. |
| StrapiExtended.BuildListQuery | src/services/cms/strapiExtendedProvider.ts:168-213 | The pushed pairs are the list query in push order: head, sort, filters, search and image population. |
| StrapiExtended.ListQueryStart | src/services/cms/strapiExtendedProvider.ts:170-176 | A list query starts with `publicationState=live`, `withCount=true`, `start` (default 0) and `limit` (default 10). |
| StrapiExtended.ListQueryEnd | src/services/cms/strapiExtendedProvider.ts:204-210 | A list query ends with `populate[image]=*` for every content type. |
| StrapiExtended.ListQuerySortAt | src/services/cms/strapiExtendedProvider.ts:178-181 | With `orderBy` set, `sort[0]` is the fifth pair, `orderBy:order` with `order` defaulting to `desc`. |
| StrapiExtended.ListQuerySort | src/services/cms/strapiExtendedProvider.ts:178-181 | A `sort[0]` pair is present exactly when `orderBy` is set. |
| StrapiExtended.ListQuerySearch | src/services/cms/strapiExtendedProvider.ts:197-202 | With a search term, each search field has its indexed `$or` pair carrying the term. |
| StrapiExtended.ListQueryNoSearch | src/services/cms/strapiExtendedProvider.ts:197 | Without a search term, no `$or` pair is pushed. |
| StrapiExtended.ListQueryFilters | src/services/cms/strapiExtendedProvider.ts:183-195 | Every filter whose criterion is given appears in the list query. |
| StrapiExtended.ListQueryAllDefined | src/services/cms/strapiExtendedProvider.ts:168-213 | No list-query value is `undefined`, so the encoded query carries every pair. |
| StrapiExtended.BuildSlugQuery | src/services/cms/strapiExtendedProvider.ts:215-226 | The result is exactly eight pairs: `publicationState=live`, the slug filter, `withCount=false`, `start=0`, `limit=1`, and the image, gallery and SEO populations. |
| ExtendedProvider.PageLimit | src/services/cms/extendedProvider.ts:39 | An absent or zero limit becomes 10. Any other limit is kept; the result is never 0. |
| ExtendedProvider.ApplyFiltersAndPagination | src/services/cms/extendedProvider.ts:32-51 | `total` is the count of filtered items, and `pageSize` is the limit. `data` is the filtered list sliced to `[offset, offset + limit)`. |
| ExtendedProvider.PageWindow | src/services/cms/extendedProvider.ts:39-42 | A page holds at most `limit` items. With a nonnegative offset it is exactly the filtered items from `offset`, up to `limit` of them. |
| ExtendedProvider.PageNumbers | src/services/cms/extendedProvider.ts:47-49 | `page` is the page the offset falls in. `totalPages` is the fewest pages that hold `total` items, and it is 0 exactly when `total` is 0. |
| ExtendedProvider.PageWithinTotal | src/services/cms/extendedProvider.ts:39-49 | An offset inside the filtered list lands on a page from 1 to `totalPages`. |
| ExtendedProvider.AllPass | src/services/cms/extendedProvider.ts:136-143 | An item passes the filter lambda exactly when it meets every given criterion. |
| ExtendedProvider.NoParamsKeepAll | src/services/cms/extendedProvider.ts:136-262 | With no criterion given, every item of every module passes. |
| ExtendedProvider.ListKeepsExactlyMatching | src/services/cms/extendedProvider.ts:136-262 | An item that meets every given criterion is kept, and every kept item meets all of them. |
| ExtendedProvider.FindBySlug | src/services/cms/extendedProvider.ts:145-147 | The result is the first item with the slug, or `None` when no item has it. |
| ExtendedProvider.UpcomingEventsSpec | src/services/cms/extendedProvider.ts:268-274 | Each event returned is from the store, upcoming and not before now, and they come in ascending date order. For a nonnegative `limit`, exactly `min(limit, n)` are returned, where n is the number of upcoming events. The result is a prefix of the upcoming events sorted by date. |
| ExtendedProvider.UpcomingEventsAreEarliest | src/services/cms/extendedProvider.ts:268-274 | An upcoming event that is left out is no earlier than any event returned. |
| ExtendedProvider.IndexOfId | src/services/cms/extendedProvider.ts:361 | The result is the first index with the id, or -1 exactly when no item has it. |
| ExtendedProvider.WithoutId | src/services/cms/extendedProvider.ts:368 | No item with the id remains, and the list does not grow. |
| ExtendedProvider.WithoutIdKeepsOthers | src/services/cms/extendedProvider.ts:367-369 | Deleting keeps every other item, in its original order. |
| ExtendedProvider.WithoutIdCounts | src/services/cms/extendedProvider.ts:367-369 | Deleting keeps each other item as many times as it occurred, and none with the id. |
| ExtendedProvider.WithoutAbsentId | src/services/cms/extendedProvider.ts:367-369 | Deleting an id that no item has changes nothing. |
| ExtendedProvider.Merge | src/services/cms/extendedProvider.ts:363 | The updated fields overwrite, and every other field of the item is kept. |
| ExtendedProvider.MockCollection.constructor | src/services/cms/extendedProvider.ts:124-132 | A module array starts as a copy of its seed items. |
| ExtendedProvider.MockCollection.List | src/services/cms/extendedProvider.ts:136-143 | The listing is the module's filter followed by the shared pagination. |
| ExtendedProvider.MockCollection.BySlug | src/services/cms/extendedProvider.ts:145-147 | The result is the first item with the slug. |
| ExtendedProvider.MockCollection.Upcoming | src/services/cms/extendedProvider.ts:268-274 | The upcoming selection of the store's events, which `UpcomingEventsSpec` and `UpcomingEventsAreEarliest` describe, with `limit` defaulting to 5. |
| ExtendedProvider.MockCollection.Create | src/services/cms/extendedProvider.ts:354-358 | Exactly one item is appended: the given one with the fresh id `prefix-stamp`. The earlier items are unchanged. |
| ExtendedProvider.MockCollection.Update | src/services/cms/extendedProvider.ts:360-365 | An unknown id gives an error and leaves the store unchanged. Otherwise only the found index changes, to the merged item, which is returned. |
| ExtendedProvider.MockCollection.Delete | src/services/cms/extendedProvider.ts:367-369 | The store becomes the items without that id. |
| ExtendedProvider.CreateAppends | src/services/cms/extendedProvider.ts:354-358 | After a create the store is one item longer, ends with the new item and starts with what it had. |
| ExtendedProvider.UpdateChangesOnlyTarget | src/services/cms/extendedProvider.ts:360-365 | After an update the length is the same and other indices are unchanged. The target takes the updated fields and keeps the rest. |
| ExtendedProvider.BuildQuery | src/services/cms/extendedProvider.ts:548-564 | `moduleType` comes first. Then come the applying guarded entries in source order, each value keeping its JSON type (string, boolean or number). |
| ExtendedProvider.RestQueryKeys | src/services/cms/extendedProvider.ts:548-564 | Every given parameter is in the REST query. `featured: false` and `limit: 0` are kept. |
| ExtendedProvider.RemapType | src/services/cms/extendedProvider.ts:640-697 | `type` is removed. It fills the category (or the subcategory) only when that field is not already set. Nothing else changes. |
| ExtendedProvider.RestListDropsType | src/services/cms/extendedProvider.ts:640-697 | A type filter never reaches the REST query. It is sent as the category or subcategory, or not at all. |
| ExtendedProvider.RestFetch | src/services/cms/extendedProvider.ts:533-546 | 204 and 404 both give `null`. Any other non-2xx status fails with `Request failed with status N`. Any other reply gives its body. |
| ExtendedProvider.RestItems | src/services/cms/extendedProvider.ts:566-582 | A falsy result becomes an empty first page of size `limit \|\| 10`. A truthy result is decoded. |
| ExtendedProvider.RequireResult | src/services/cms/extendedProvider.ts:595-618 | A falsy result throws with the given message. A truthy one is returned. |
| ExtendedProvider.RestUpcomingParams | src/services/cms/extendedProvider.ts:707-710 | The request asks for upcoming events ordered by ascending date, with the given limit. |
| ExtendedProvider.Choose | src/services/cms/extendedProvider.ts:875-897 | Strapi with a base URL gets the Strapi provider. Other non-mock, non-WordPress backends with a base URL get the REST one. All others get the mock. |
| ExtendedProvider.CacheKeyAsWrittenCollides | src/services/cms/extendedProvider.ts:878-889 | Two configurations with different base URLs and tokens share the string key as written. |
| ExtendedProvider.KeyDeterminesChoice | src/services/cms/extendedProvider.ts:878-886 | With the corrected, structured key, equal keys call for the same provider. |
| ExtendedProvider.ProviderCache.constructor | src/services/cms/extendedProvider.ts:872-873 | Both cache slots start empty. |
| ExtendedProvider.ProviderCache.Get | src/services/cms/extendedProvider.ts:875-897 | The provider returned is the one the configuration calls for. A non-mock choice is cached under its key, and the mock path leaves the cache alone. The key is the corrected structured key, not the string the source builds (see "## Left out"). |
| CmsConfig.NameText | src/services/cms/extendedProvider.ts:878 | Every provider has a nonempty name in the key. |
| Cms.Segments | src/services/cms/index.ts:898 | Every segment is nonempty and has no `/`. |
| Cms.ApiIndex | src/services/cms/index.ts:899 | The result is the first index of `api`, or -1 exactly when no segment is `api`. |
| Cms.TruncateAtApi | src/services/cms/index.ts:900-904 | The path becomes the segments up to and including the first `api`. Query and hash are dropped. |
| Cms.NormalizeStrapiBaseUrl | src/services/cms/index.ts:893-912 | Blank input gives `""`. A parsed URL with an `api` segment is cut after it. Otherwise the rules of `normalizeStrapiApiUrl` apply. |
| Cms.TruncatedPathEndsInApi | src/services/cms/index.ts:900-901 | The truncated path's segments end in the first `api` and hold no earlier one. |
| Cms.PathOfSegments | src/services/cms/index.ts:901 | A path written as `/` and the joined segments splits back into those segments. |
| Cms.ToAbsoluteStrapiUrl | src/services/cms/index.ts:93-101 | Empty and `http(s)://` URLs are kept. Others are resolved against the origin, and kept when resolution fails. |
| Cms.NormalizeStrapiUploadFile | src/services/cms/index.ts:103-117 | A falsy file gives `None`. Otherwise: the title falls back name, then hash, then `file`; a non-string alt text or mime becomes `""`; a non-number size becomes 0; `uploadedBy` is `strapi`. |
| Cms.UploadTitleFallback | src/services/cms/index.ts:108 | The title is the name when truthy, else the hash when truthy, else `file`. |
| Cms.BuildArticleQuery | src/services/cms/index.ts:172-186 | No params gives `undefined`. Otherwise the record's entries follow the source's order of assignment. |
| Cms.ArticleQueryKeys | src/services/cms/index.ts:175-184 | Every set field is in the record. `featured: false` and `offset: 0` are kept, and an empty category is not. |
| Cms.ErrorMessage | src/services/cms/index.ts:143-162 | The message is the first nonblank of `error.message`, `message` and `error` for a JSON body, or the text of another body. Otherwise it is the status message. |
| Cms.FetchJson | src/services/cms/index.ts:129-170 | A network failure is passed on. 204 gives `null`, and so does 404 unless `allowNotFound` is `false`. Other non-2xx statuses throw an `HttpError` with that status and its message. A 2xx body that does not parse is a failure. |
| Cms.GetArticles | src/services/cms/index.ts:188-249 | In admin mode, a failure on 401, 403, 404 or `TypeError` retries `/articles` without the key. A 401 or 403 there, with a key on the server, retries with the key. Any other failure is the outcome. A falsy result gives an empty page. |
| Cms.GetArticlesRetriesWhenItCan | src/services/cms/index.ts:215-237 | A failure that has a retry rule is always followed by that retry. A thrown outcome is the failure of the last request. |
| Cms.PublicNotFoundIsEmpty | src/services/cms/index.ts:139-247 | Outside admin mode, a 404 gives the empty page of size `limit \|\| 10`, never an error. |
| Cms.Resolve | src/services/cms/index.ts:950-958 | The result is the registered instance of the current provider, or the mock when none is registered. |
| Cms.Configured | src/services/cms/index.ts:960-975 | Only a non-mock provider with a base URL gains an instance. Every other instance is unchanged. |
| Cms.ConfigureThenResolve | src/services/cms/index.ts:960-975 | After configuring with a base URL, strapi, django and custom get a REST instance and WordPress gets its own. Without a base URL, the previous instance or the mock is served. |
| Cms.ConfiguredWellKeyed | src/services/cms/index.ts:972-973 | Every REST instance sits under its own provider and has a base URL. Configuring keeps this true. |
| Cms.CmsRegistry.constructor | src/services/cms/index.ts:884-889 | The registry starts with the default Strapi configuration, the mock instance and a REST instance for Strapi. |
| Cms.CmsRegistry.GetProvider | src/services/cms/index.ts:950-958 | Returns the instance resolved for the current configuration. In a well-keyed registry, a built REST instance belongs to the current provider and has a base URL. |
| Cms.CmsRegistry.GetConfig | src/services/cms/index.ts:977-980 | Returns the current configuration. |
| Cms.CmsRegistry.Configure | src/services/cms/index.ts:960-975 | It can be called in any state. The configuration becomes current and the instances are updated as `Configured` describes. A well-keyed registry stays well keyed. |
| Cms.CmsRegistry.Register | src/services/cms/index.ts:982-984 | Only the given slot changes. The configuration is kept. A well-keyed registry stays well keyed when a REST instance is registered under its own provider with a base URL. |
| TextUtils.TruncateText | src/lib/utils.ts:40-43 | Blank input gives `""`. A trimmed text of at most `maxChars` characters is returned as it is. |
| TextUtils.TruncateTextEllipsis | src/lib/utils.ts:44-47 | A longer text ends with `…`. |
| TextUtils.TruncateTextCut | src/lib/utils.ts:44-47 | What comes before `…` is a trimmed prefix of the first `maxChars` characters. It is nonempty when `maxChars` is at least 1. |
| TextUtils.TruncateTextAtSpace | src/lib/utils.ts:45-46 | Take the first `maxChars` characters of the trimmed text. If their last space is no more than 30 characters back, the text before it is kept. Otherwise all of them are kept. The kept part is trimmed, and `…` follows. |
| TextUtils.MinutesForWords | src/lib/utils.ts:52-53 | At least one minute, and the ceiling of words over 200 when there is a word. |
| TextUtils.ReadTimeMinutes | src/lib/utils.ts:50-54 | The result is at least 1. With at least one word, it is the number of 200-word minutes that holds them, rounded up. |
| TextUtils.Uniq | src/lib/utils.ts:84-94 | The loop over the set keeps exactly the first item of each key, in order. |
| TextUtils.FirstOccurrencesKeys | src/lib/utils.ts:84-94 | One item is kept per key of the input, and no two kept items share a key. |
| TextUtils.FirstOccurrencesAreFirst | src/lib/utils.ts:87-91 | Every kept item is the first input item with its key. |
| TextUtils.FirstOccurrencesOrdered | src/lib/utils.ts:84-94 | The kept items are a subsequence of the input. |
| TextUtils.FirstOccurrencesOfDistinct | src/lib/utils.ts:84-94 | Items whose keys are already distinct are all kept. |
| TextUtils.FirstOccurrencesIncludesFirst | src/lib/utils.ts:84-94 | An item whose key no earlier item has is kept. |
| TextUtils.UniqIdempotent | src/lib/utils.ts:84-94 | Applying `uniq` twice gives the same result as once. |
| TextUtils.UniqIgnoresCase | src/lib/utils.ts:88 | On strings, no two kept items are equal ignoring case. |
| TextUtils.KeptTokensExactly | src/lib/utils.ts:140-141 | Every kept token is a word without whitespace. Every word of at least 3 characters that is not a stop word, ignoring case, is kept. |
| TextUtils.TokenKeywordsSplitsHindiWords | src/lib/utils.ts:96-140 | As written, the word सरकार loses its vowel sign and yields the fragment सरक. |
| TextUtils.TokenKeywordsKeepsWholeWords | src/lib/utils.ts:96-141 | With marks kept, a long enough Hindi word made of letters and marks and not a stop word is its own keyword. |
| TextUtils.StopWordsAreShort | src/lib/utils.ts:103-138 | No stop word has more than four characters. |
| TextUtils.CategoryHindi | src/lib/utils.ts:283-300 | A known slug gets its nonempty Hindi name. A name that every object literal inherits from `Object.prototype` (`constructor`, `__proto__`, `toString` and the rest) yields that inherited member, which is not a string. Any other text is returned unchanged. |
| TextUtils.ValidCategoriesMapped | src/lib/utils.ts:267-300 | The thirteen valid categories are exactly the mapped slugs, and each gets a string Hindi name different from its slug. |
| TextUtils.GeoRegion | src/lib/utils.ts:187-194 | The region is rampur, up, india or unknown. Each holds exactly when its test holds and no earlier test does. |
| TextUtils.RampurCategoryWins | src/lib/utils.ts:188-189 | The `rampur` category outranks any place the text names. |
| TextUtils.MapNames | src/lib/utils.ts:212-226 | Each name becomes one entity of the given type, in order. |
| TextUtils.PushEntities | src/lib/utils.ts:212-221 | The loop appends one entity per name, in order. |
| TextUtils.PushGeoEntities | src/lib/utils.ts:215-220 | The loop appends a place for each geo token the corpus contains, in token order. |
| TextUtils.CollectEntities | src/lib/utils.ts:200-226 | The pushes in source order give exactly the raw entity list. |
| TextUtils.PrimaryEntity | src/lib/utils.ts:232-238 | There is none exactly when no entity is ranked. Otherwise it has the top entity's name. A place becomes an organization, with its score raised by 15 hundredths up to 100, under an organization hint. |
| TextUtils.Mentions | src/lib/utils.ts:240 | The mentions are the first `min(8, n)` ranked entities not named like the primary one, in rank order, where n is the number of such entities. |
| TextUtils.MentionsComplete | src/lib/utils.ts:240 | With 8 or fewer such entities, every ranked entity not named like the primary one is mentioned. |
| TextUtils.MentionsOrdered | src/lib/utils.ts:240 | The mentions are a subsequence of the ranked entities. |
| TextUtils.Keywords | src/lib/utils.ts:242-254 | The keywords are the first `min(30, n)` cleaned candidates. Cleaning means `uniq` ignoring case, then trimming, then dropping empty ones; n is the number left. Each keyword is nonempty and trimmed. |
| TextUtils.CleanCandidates | src/lib/utils.ts:242-253 | Every cleaned candidate is nonempty and trimmed. |
| TextUtils.KeywordsFromFirstCandidates | src/lib/utils.ts:242-254 | Every keyword is a trimmed candidate that is the first of the candidates with its lower-cased text. |
| TextUtils.KeywordsKeepFirstCandidates | src/lib/utils.ts:242-254 | With 30 or fewer cleaned candidates, every nonblank candidate that is the first with its lower-cased text gives its trimmed text as a keyword. |
| TextUtils.DeriveAiSeoSignals | src/lib/utils.ts:155-263 | The result gives the read time (at least 1) and the region. It also gives the primary entity, the mentions and the keywords as specified, with the keyword tokens from `toTokenKeywords` as written. There are at most 8 mentions and 30 keywords, and no mention shares the primary's name. |
| NewsDetail.EscapeHtmlPerChar | src/views/NewsDetail.tsx:63-69 | Because `&` is replaced first, the chain escapes every character on its own. |
| NewsDetail.EscapeHtmlIdentity | src/views/NewsDetail.tsx:63-69 | Text without the five special characters is unchanged. |
| NewsDetail.EscapeHtmlSafe | src/views/NewsDetail.tsx:63-69 | The output has no `<`, `>`, `"` or `'`. |
| NewsDetail.EscapeHtmlAmpersands | src/views/NewsDetail.tsx:63-69 | Every `&` of the output starts one of the five entities. |
| NewsDetail.EscapeHtmlRoundTrip | src/views/NewsDetail.tsx:63-69 | Unescaping gives the text back, so the escaper loses nothing. |
| NewsDetail.PathSegment | src/views/NewsDetail.tsx:29-38 | The result is `""` or a segment without `/`. |
| NewsDetail.YouTubeEmbedUrl | src/views/NewsDetail.tsx:23-52 | Blank input gives `""`. Any nonempty result is the embed prefix, an id and `?rel=0`. |
| NewsDetail.ShortLinkTakesFirstSegment | src/views/NewsDetail.tsx:28-31 | A `youtu.be/<id>` address embeds its first path segment. |
| NewsDetail.EmbedPathTakesSecondSegment | src/views/NewsDetail.tsx:32-40 | An `/embed/<id>` or `/shorts/<id>` path on a YouTube host embeds its second segment. |
| NewsDetail.WatchPageTakesV | src/views/NewsDetail.tsx:41-42 | Any other YouTube address embeds its `v` parameter, and gives nothing without one. |
| NewsDetail.BareIdFallback | src/views/NewsDetail.tsx:48-51 | Text that is not a URL is accepted exactly when it is an 11-character `[A-Za-z0-9_-]` id. |
| NewsDetail.ShortLinkWithoutId | src/views/NewsDetail.tsx:28-31 | A `youtu.be` address with path `/` gives `""` without the bare-id fallback. |
| NewsDetail.OtherHostFallsBack | src/views/NewsDetail.tsx:26-51 | A URL on a host other than YouTube's goes on to the bare-id test, exactly like text that is not a URL. |
| NewsDetail.ReadingMinutes | src/views/NewsDetail.tsx:55-60 | The minutes are the ceiling of pieces over 200, at least 1. The pieces come from the content, or the excerpt when there is no content. |
| NewsDetail.ReadingTimeLabel | src/views/NewsDetail.tsx:60 | The label is decimal digits without a leading zero followed by ` मिनट`, and the digits read back as the minutes. |
| NewsDetail.ReadingMinutesAgree | src/views/NewsDetail.tsx:55-60 | On trimmed content, the page and `computeReadTimeMinutes` give the same minutes. |
| NewsDetail.RelatedNews | src/views/NewsDetail.tsx:143 | The result is the first up to 4 articles of the category list that are not the current one: as many as are available, up to 4, and exactly those, in order. |
| NewsDetail.RelatedNewsComplete | src/views/NewsDetail.tsx:143 | With at most four other articles in the category, every one of them is related. |
| NewsDetail.RelatedNewsOrdered | src/views/NewsDetail.tsx:143 | The related articles keep the category list's order. |
| NewsDetail.RelatedLinks | src/views/NewsDetail.tsx:153-159 | At most 2 links, each with a title and an address under the category. Position by position, the first and second related article each give their link exactly when they exist and have a slug and a title. |
| NewsDetail.RelatedLinksOfComplete | src/views/NewsDetail.tsx:153-159 | When the first two related articles have a slug and a title, both become links, in order. |
| NewsDetail.RelatedLinksSkipIncomplete | src/views/NewsDetail.tsx:153-159 | A first article without a slug or title is skipped, and a complete second one gives the only link. |
| NewsDetail.FirstParagraphEnd | src/views/NewsDetail.tsx:169-170 | The result is -1 or the index of a `</p>` in any letter case, and no `</p>` occurs earlier. |
| NewsDetail.InjectLinks | src/views/NewsDetail.tsx:169-172 | The block goes right after the first `</p>`, or in front when there is none. |
| NewsDetail.ContentWithInternalLinks | src/views/NewsDetail.tsx:151-173 | Without links the content is unchanged. Otherwise the link block is injected by the corrected `InjectLinks`, which cuts right after the first `</p>` of the content itself (not `InjectLinksAsWritten`; see "## Findings"). |
| NewsDetail.InjectionOnlyInserts | src/views/NewsDetail.tsx:171-172 | The result is the content with the block inserted at one position. |
| NewsDetail.DottedIMisplacesLinks | src/views/NewsDetail.tsx:170-172 | For `İ</p>a`, the code as written puts the block after the `a`, one character too late. The corrected injection puts it right after `</p>`. |
| NewsDetail.AsWrittenAgreesWithoutDottedI | src/views/NewsDetail.tsx:170-172 | Without U+0130 the code as written and the corrected injection agree. |
| Seo.Merged | src/components/SEO.tsx:74-79 | The merged list is never shorter than the defaults. |
| Seo.MergeKeywords | src/components/SEO.tsx:74-79 | The loop builds the merged list. |
| Seo.MergedContents | src/components/SEO.tsx:69-79 | The defaults stay in front, every keyword appears, and nothing else does. |
| Seo.MergedIsUniq | src/components/SEO.tsx:74-79 | With distinct defaults, the merge equals exact-match `uniq` of the defaults followed by the keywords. |
| Seo.MergedDistinct | src/components/SEO.tsx:74-79 | The merged list has no duplicates when the defaults have none. |
| Seo.DefaultKeywordsDistinct | src/components/SEO.tsx:69-73 | The eleven defaults are distinct. |
| Seo.SiteUrl | src/components/SEO.tsx:63 | The site URL is the variable when it is set and nonempty, and is never empty. |
| Seo.CanonicalUrl | src/components/SEO.tsx:64 | The result is the site URL followed by `canonical`, or the site URL alone. |
| Seo.NewsArticleSchema | src/components/SEO.tsx:151-205 | The headline is the article's. The body, image, modification date, author, section and word count take their fallbacks. The ids derive from the canonical URL. |
| Seo.WordCountZeroIffBlank | src/components/SEO.tsx:192 | The word count is 0 exactly when the body, or the description standing in for it, is blank. |
| Seo.SchemaBlocks | src/components/SEO.tsx:151-322 | Article, job, speakable, breadcrumb, collection and FAQ blocks are each present under their conditions. The job block carries the posting's title, and its locality is the given location when that is nonempty. An article block is `NewsArticleSchema` of the article, with the `ogImage` prop, the site URL and the canonical URL. Speakable uses the default selectors when none is given. The breadcrumb is `होम` at the site URL (position 1), then the title at the canonical URL (position 2). The collection id is the canonical URL with `#collection`. |
| Seo.OgImage | src/components/SEO.tsx:51 | The default image is used only when the prop is missing; any given value, `""` included, is kept. |
| Seo.EmptyOgImageKept | src/components/SEO.tsx:51-176 | With `ogImage` `""` and an article without its own image, the article's image URL is `""`. |
| Seo.HomepageBlocks | src/components/SEO.tsx:249-322 | The homepage has the FAQ and neither breadcrumb nor collection. Other pages have the breadcrumb. |
| Seo.ArticlePageBlocks | src/components/SEO.tsx:236-296 | An article page always has a speakable block and never a collection block. |
| Seo.SeoSchemas | src/components/SEO.tsx:60-322 | The merged keywords start with the defaults and have no duplicates. The blocks use them. |
| AdminLogin.NormalizeRoleType | src/app/api/admin/login/route.ts:34-40 | Non-strings and blank strings give `null`. Others are trimmed and lower-cased, and `administrator` becomes `admin`. |
| AdminLogin.NormalizedRoleFixed | src/app/api/admin/login/route.ts:34-40 | A role is its own normalization exactly when it is normalized. |
| AdminLogin.NormalizeRoleTypeIdempotent | src/app/api/admin/login/route.ts:34-40 | Normalizing twice gives the same result as once. |
| AdminLogin.RoleFrom | src/app/api/admin/login/route.ts:114-115 | The first value that normalizes is used, else the fallback. |
| AdminLogin.UserRole | src/app/api/admin/login/route.ts:114-115 | The role is the normalized `role.type`, else `role.name`, else `author`. |
| AdminLogin.BaseUrlCandidates | src/app/api/admin/login/route.ts:15-22 | Three variables come first, then the built-in URLs in order. |
| AdminLogin.StrapiApiBaseUrl | src/app/api/admin/login/route.ts:14-32 | The result is always a nonempty base URL, because the built-in URLs rule out the throw. |
| AdminLogin.BaseUrlFromFirst | src/app/api/admin/login/route.ts:16-31 | A usable `STRAPI_API_URL` decides. |
| AdminLogin.BaseUrlFromSecond | src/app/api/admin/login/route.ts:17-31 | Otherwise a usable `NEXT_PUBLIC_STRAPI_API_URL` decides. |
| AdminLogin.BaseUrlFromThird | src/app/api/admin/login/route.ts:18-31 | Otherwise a usable `NEXT_PUBLIC_STRAPI_BASE_URL` decides. |
| AdminLogin.BaseUrlFromBuiltIns | src/app/api/admin/login/route.ts:19-31 | With none usable, the hosted URL is the base URL. |
| AdminLogin.InputEmailNormalized | src/app/api/admin/login/route.ts:54 | The email sent is trimmed and lower case. It is empty exactly when the submitted one is blank. |
| AdminLogin.InputPassword | src/app/api/admin/login/route.ts:55 | The password is trimmed, and `""` when not a string. |
| AdminLogin.SessionUserOf | src/app/api/admin/login/route.ts:121-126 | The id is the string id or `""`, and the name defaults to `User`. The email falls back to the input email. |
| AdminLogin.SessionCookies | src/app/api/admin/login/route.ts:139-153 | Two cookies, `admin_session` and `strapi_jwt`. Both are HTTP-only, lax and `/`, with a max age of 86400, and secure in production. |
| AdminLogin.Admit | src/app/api/admin/login/route.ts:100-154 | A missing `jwt` or `user` gives 401. A blocked user, or a role outside the allowed four, gives 403. Otherwise the session user and the cookies are returned. |
| AdminLogin.UpstreamFailure | src/app/api/admin/login/route.ts:73-98 | 401 exactly for an upstream 400, 401 or 403. Every other failure gives 502. |
| AdminLogin.ThrownMessage | src/app/api/admin/login/route.ts:95 | The error's message, else `Strapi login failed`. |
| AdminLogin.LoginAt | src/app/api/admin/login/route.ts:42-155 | Statuses are 400, 401, 403, 500 or 502. A missing secret gives 500 before anything else. A success needs both inputs and an allowed role. |
| AdminLogin.Answer | src/app/api/admin/login/route.ts:73-154 | A success needs a 2xx reply with readable JSON. |
| AdminLogin.BuiltInApiUrlsUsable | src/app/api/admin/login/route.ts:19-31 | The built-in list is usable: the hosted URL normalizes to itself. |
| AdminLogin.Login | src/app/api/admin/login/route.ts:42-155 | The sign-in under the environment's base URL keeps the guarantees of `LoginAt`. |
| AdminLogin.BlankCredentialsRefused | src/app/api/admin/login/route.ts:57-62 | With the secret set, blank credentials give 400 whatever Strapi would answer. |
| AdminLogin.AsksWithNormalizedCredentials | src/app/api/admin/login/route.ts:67-71 | Strapi is asked once, at `base/auth/local`, with the normalized email and password. |
| AdminLogin.AnswersReply | src/app/api/admin/login/route.ts:64-154 | With the secret and both inputs, the answer follows Strapi's reply. |
| AdminLogin.RefusedCredentials | src/app/api/admin/login/route.ts:74-82 | Upstream 400, 401 or 403 gives 401. |
| AdminLogin.UpstreamErrorIsBadGateway | src/app/api/admin/login/route.ts:83-98 | Any other failing status, a failed request or an unreadable reply gives 502. |
| AdminLogin.BadGatewayText | src/app/api/admin/login/route.ts:83-86 | The error text is the reply's text, else `Strapi login failed (status)`. |
| AdminLogin.MissingJwtOrUser | src/app/api/admin/login/route.ts:100-108 | A reply without a nonempty `jwt` or a truthy `user` gives 401. |
| AdminLogin.BlockedUserRefused | src/app/api/admin/login/route.ts:110-112 | A blocked user gives 403, whatever the role. |
| AdminLogin.RoleOutsideAdminArea | src/app/api/admin/login/route.ts:114-119 | An unblocked user with a role outside the four gives 403. |
| AdminLogin.SignedIn | src/app/api/admin/login/route.ts:121-154 | When every check passes, the user signs in with the Strapi fields and both cookies. |
| AdminLogin.RolelessUserIsAuthor | src/app/api/admin/login/route.ts:114-115 | A user without a role is an author, and is admitted. |
| AdminLogin.AdministratorIsAdmin | src/app/api/admin/login/route.ts:38 | A role typed `Administrator`, in any ASCII case and with spaces, signs in as `admin`. |
| AdminMe.SessionSecret | src/app/api/admin/me/route.ts:45 | The secret is `ADMIN_JWT_SECRET` when set, else `ADMIN_SESSION_SECRET`, else none. |
| AdminMe.VerifiedSession | src/app/api/admin/me/route.ts:43-53 | A session requires the cookie, the secret and a token that verifies. |
| AdminMe.SessionRole | src/app/api/admin/me/route.ts:72-95 | The role is the normalized session role, else `author`. |
| AdminMe.SessionUserOfSession | src/app/api/admin/me/route.ts:66-97 | The user carries the session's id, name and email, and the session role. |
| AdminMe.CurrentRole | src/app/api/admin/me/route.ts:78-79 | The role is the upstream type, then the upstream name, then the session role, then `author`. |
| AdminMe.UserFromReply | src/app/api/admin/me/route.ts:81-88 | Each of id, name and email comes from the reply when it has the right type, otherwise from the session. |
| AdminMe.CurrentAt | src/app/api/admin/me/route.ts:42-99 | The result is 401 exactly when a gate fails. Every other path answers a user with a normalized role. |
| AdminMe.CurrentUser | src/app/api/admin/me/route.ts:42-99 | The same holds under the environment's base URL. |
| AdminMe.GatesRefuse | src/app/api/admin/me/route.ts:43-58 | No cookie, no secret, a failed token or no Strapi token gives 401. |
| AdminMe.UpstreamFailureKeepsSession | src/app/api/admin/me/route.ts:66-97 | A failed request, a failing status or an unreadable reply gives the session's user. |
| AdminMe.UpstreamSuccessGivesStrapiUser | src/app/api/admin/me/route.ts:77-88 | A readable 2xx reply gives the user that Strapi describes, backed by the session. |
| AdminMe.EmptyReplyIsSessionUser | src/app/api/admin/me/route.ts:66-88 | A reply with none of the fields describes the session user, so the two paths agree. |
| AdminMe.NumericIdAsText | src/app/api/admin/me/route.ts:83 | A numeric Strapi id is answered as its decimal text. |
| AdminMe.AnyRoleIsAnswered | src/app/api/admin/me/route.ts:78-79 | Unlike sign-in, any normalized role passes through. |
| BuildConfig.NormalizeConfigUrl | next.config.js:7-13 | An unset value gives `""`. Otherwise the shared normalization applies. |
| BuildConfig.BaseUrlFromEnv | next.config.js:15-27 | The result is `""` exactly when none of the four variables is usable. |
| BuildConfig.BaseUrlFromEnvIsFirst | next.config.js:15-27 | The base URL is the normalization of the first usable variable. |
| BuildConfig.RemoveFirst | next.config.js:33 | Removes the first `:` only. |
| BuildConfig.RemotePatternFromUrl | next.config.js:29-46 | Empty or unparsable input gives nothing, and so does an empty protocol or host. Otherwise the pattern is the protocol without `:`, the host, the port only when nonempty, and `/**`. |
| BuildConfig.PatternOfParsedUrl | next.config.js:32-42 | A URL with a scheme and a host gives that scheme, host and port. |
| BuildConfig.RemotePatterns | next.config.js:48-77 | The patterns are the four fixed entries, then one derived entry exactly when derivation succeeds. All are well formed. |
| BuildConfig.NoStrapiUrlNoExtraPattern | next.config.js:15-77 | With no usable variable, only the fixed hosts are accepted. |

## Left out

- URL parsing and resolution (`new URL`), `Date` and the clock, the Unicode regular expressions, `stripHtmlToText` and the phrase extractors are passed in as parameters. Their own behaviour is not modelled.
- Session tokens: signing and verifying are parameters. src/lib/adminSession.ts is not part of this model.
- All network I/O (`fetch`, `Response`, `NextResponse`, cookies) becomes reply datatypes. `request.json()` throwing is not modelled: the body is taken as given.
- AdminMe.Session: the payload's id, name and email are taken to be strings, as the token helper's type says.
- The floating-point freshness, trending, geo and entity scores are not modelled. Entity scores are integer hundredths, used only for ordering.
- getCalendarEvents and getHolidaysByMonth are left out. They depend on local-time calendar fields and on `Promise.all`.
- The `localStorage` hydration of the CMS configuration is left out: it is browser storage.
- REST `buildUrl`, `getItemBySlug` and `deleteItem` are left out: they are URL assembly and requests only. The key-order semantics of JSON objects is also not modelled.
- Json.OwnEntries: spreading an array copies its index keys, which the model does not do.
- StrapiExtended.PushFilters: the twelve guarded `if` pushes are one table walked by a loop, not twelve statements.
- Strings.Lower: `toLowerCase` is modelled for ASCII capitals and U+0130 only.
- TextUtils.Keywords: `uniq` runs before the trim, as in the source.
- Seo.SchemaBlocks: only the fields that depend on the props are modelled. The website and organisation blocks are fixed literals.
- NewsDetail.ReadingTimeLabel: `article.readTime \|\|` in front of the computed label is not modelled.
- Get (ExtendedProvider.ProviderCache.Get): the cache compares the key as a (provider, base URL, token) record. The source compares the string `${provider}:${baseUrl}:${apiKey || ''}`, which can hand a configuration the provider built for another one (see "## Findings"). The model does not follow that stale hit.
- String lengths count Unicode scalar values, where JavaScript's `.length` and `slice` count UTF-16 code units. For text with characters outside the Basic Multilingual Plane, such as emoji, the cuts of `truncateText`, the three-character test of the keyword tokens and the two-character entity test can differ. Devanagari and ASCII text are unaffected.
- ExtendedProvider.Passes: a search field that is not a string is read as `""`, where the source's `.toLowerCase()` would throw.
- JSON numbers are integers in the model. `String(n)` of a fractional number, such as `1.5`, is not modelled.
- BuildConfig: the rest of `nextConfig` is fixed settings and is not modelled.
- AdminLogin.StrapiApiBaseUrl: the "not configured" throw cannot happen with the built-in URLs. The model proves that and does not model the throw.
- StrapiExtended.SplitKeywordsJoin: the unit test's `"a, b ,  c"` case is not stated as a literal. The general join and clean lemmas cover it.
- ApiUrl.NormalizeIdempotent: it assumes the result has no trailing whitespace. `"abc /"` normalizes to `"abc "`, which normalizes again to `"abc"`.

## Findings

| source | as written | input that shows it | evidently intended | confidence | as-written member | corrected member |
|---|---|---|---|---|---|---|
| src/services/cms/extendedProvider.ts:878-889 | The cache key joins provider, base URL and key with `:`, and both of the last two may contain `:`. | Base URL `http://h` with key `8080:t`, and base URL `http://h:8080` with key `t`. Both give the key `strapi:http://h:8080:t`, so the second configuration receives the first one's provider. | One cached provider per distinct configuration. | not executed | ExtendedProvider.CacheKeyAsWrittenCollides | ExtendedProvider.KeyDeterminesChoice |
| src/lib/utils.ts:96-99 | `[^\p{L}\p{N}\s-]` also blanks combining marks, including Devanagari vowel signs and the virama. | `सरकार` loses its vowel sign ा. What remains splits into `सरक` and `र`, and the short piece is dropped. | Hindi words kept whole as keywords. | not executed | TextUtils.TokenKeywordsSplitsHindiWords | TextUtils.TokenKeywordsKeepsWholeWords |
| src/views/NewsDetail.tsx:170-172 | The index of `</p>` is found in `baseHtml.toLowerCase()` but cuts `baseHtml`. | `İ</p>a`: U+0130 lower-cases to two characters, so the index is one too high. The block lands after the `a` instead of right after `</p>`. | The block inserted right after the first `</p>`. | not executed | NewsDetail.DottedIMisplacesLinks | NewsDetail.ContentWithInternalLinks |

TextUtils.DeriveAiSeoSignals follows the source and builds its keywords from TextUtils.TokenKeywordsAsWritten. The corrected TextUtils.TokenKeywords stands beside it with its own proof.
