/**
 * The extended CMS provider (src/services/cms/extendedProvider.ts): the shared
 * filter-then-paginate helper, the in-memory mock store of the nine content modules with its
 * filters, slug lookup, upcoming events and create/update/delete, the REST provider's query
 * record and parameter remapping, and the cache that picks the provider for a configuration.
 */
module ExtendedProvider {
  import opened Wrappers
  import opened Strings
  import opened Seqs
  import opened Json
  import opened ExtendedTypes
  import opened CmsConfig
  import StrapiExtended

  type ContentType = StrapiExtended.ContentType

  /** A content item: a JSON object such as an exam, a holiday or an event. */
  type Item = map<string, Value>

  /** `PaginatedResponse<T>`. */
  datatype Page<T> = Page(data: seq<T>, total: int, page: int, pageSize: int, totalPages: int)

  // ---- filter and paginate ----

  /** `params.limit || 10`: an absent or zero limit becomes 10. */
  function PageLimit(p: QueryParams): (l: int)
    ensures l != 0
    ensures p.limit.Some? && p.limit.value != 0 ==> l == p.limit.value
    ensures p.limit.None? || p.limit.value == 0 ==> l == 10
  {
    if p.limit.Some? && p.limit.value != 0 then p.limit.value else 10
  }

  /** `params.offset || 0`. */
  function PageOffset(p: QueryParams): int {
    if p.offset.Some? then p.offset.value else 0
  }

  /** `filterFn ? items.filter(filterFn) : [...items]`. */
  function Filtered<T>(items: seq<T>, filter: Option<T -> bool>): seq<T> {
    if filter.Some? then Filter(items, filter.value) else items
  }

  /** `applyFiltersAndPagination(items, params, filterFn)`. */
  function ApplyFiltersAndPagination<T>(items: seq<T>, p: QueryParams, filter: Option<T -> bool>): (r: Page<T>)
    ensures r.total == |Filtered(items, filter)| && r.pageSize == PageLimit(p)
    ensures r.data == Slice(Filtered(items, filter), PageOffset(p), PageOffset(p) + PageLimit(p))
  {
    var filtered := Filtered(items, filter);
    var limit := PageLimit(p);
    var offset := PageOffset(p);
    var total := |filtered|;
    Page(Slice(filtered, offset, offset + limit), total, FloorDiv(offset, limit) + 1, limit, CeilDiv(total, limit))
  }

  /**
   * With a positive limit the page holds at most `limit` items; with a non-negative offset it
   * is exactly the filtered items from `offset` on, up to `limit` of them.
   */
  lemma PageWindow<T>(items: seq<T>, p: QueryParams, filter: Option<T -> bool>)
    requires PageLimit(p) > 0
    ensures var r := ApplyFiltersAndPagination(items, p, filter);
            |r.data| <= r.pageSize
    ensures var r := ApplyFiltersAndPagination(items, p, filter);
            var off := PageOffset(p);
            0 <= off <= r.total ==> r.data == Filtered(items, filter)[off..if off + r.pageSize < r.total then off + r.pageSize else r.total]
  {
  }

  /** `page` is the page the offset falls in, and `totalPages` the fewest pages holding `total` items. */
  lemma PageNumbers<T>(items: seq<T>, p: QueryParams, filter: Option<T -> bool>)
    requires PageLimit(p) > 0
    ensures var r := ApplyFiltersAndPagination(items, p, filter);
            (r.page - 1) * r.pageSize <= PageOffset(p) < r.page * r.pageSize
    ensures var r := ApplyFiltersAndPagination(items, p, filter);
            (r.totalPages - 1) * r.pageSize < r.total <= r.totalPages * r.pageSize
    ensures var r := ApplyFiltersAndPagination(items, p, filter);
            r.totalPages >= 0 && (r.totalPages == 0 <==> r.total == 0)
  {
    var r := ApplyFiltersAndPagination(items, p, filter);
    var l := r.pageSize;
    var q := FloorDiv(PageOffset(p), l);
    var t := r.totalPages;
    assert r.page == q + 1 && t == CeilDiv(r.total, l);
    ScaleFacts(q, l);
    ScaleFacts(t, l);
  }

  /** The products page arithmetic relies on. */
  lemma ScaleFacts(a: int, l: int)
    requires l > 0
    ensures (a + 1) * l == a * l + l && (a - 1) * l == a * l - l
    ensures a >= 1 ==> a * l >= l
    ensures a <= -1 ==> a * l <= -l
  {
    if a >= 1 {
      assert a * l == (a - 1) * l + l;
      ScaleNonNegative(a - 1, l);
    }
    if a <= -1 {
      assert a * l == -((-a - 1) * l) - l;
      ScaleNonNegative(-a - 1, l);
    }
  }

  lemma PageBetween(page: int, pages: int, l: int, off: int, total: int)
    requires l > 0 && 0 <= off < total
    requires (page - 1) * l <= off < page * l && total <= pages * l
    ensures 1 <= page <= pages
  {
    ScaleFacts(page, l);
    if page > pages {
      assert (page - 1 - pages) * l == (page - 1) * l - pages * l;
      ScaleNonNegative(page - 1 - pages, l);
    }
  }

  lemma ScaleNonNegative(a: int, l: int)
    requires a >= 0 && l > 0
    ensures a * l >= 0
  {
  }

  /** An offset inside the filtered items lands on one of the pages. */
  lemma PageWithinTotal<T>(items: seq<T>, p: QueryParams, filter: Option<T -> bool>)
    requires PageLimit(p) > 0 && 0 <= PageOffset(p) < |Filtered(items, filter)|
    ensures var r := ApplyFiltersAndPagination(items, p, filter);
            1 <= r.page <= r.totalPages
  {
    var r := ApplyFiltersAndPagination(items, p, filter);
    var l := PageLimit(p);
    var q := FloorDiv(PageOffset(p), l);
    ScaleFacts(q, l);
    PageBetween(q + 1, CeilDiv(r.total, l), l, PageOffset(p), r.total);
    assert r.page == q + 1 && r.totalPages == CeilDiv(r.total, l);
  }

  // ---- mock filters ----

  /** A string field of an item; the item types declare these fields as strings. */
  function Text(item: Item, field: string): string {
    if field in item && item[field].Str? then item[field].s else ""
  }

  /** One early-return test of a mock list filter. */
  datatype Criterion =
    | FieldEquals(wanted: Option<string>, field: string)    // `if (params.x && item.field !== params.x) return false`
    | MustBeFeatured(featured: Option<bool>)                 // `if (params.featured && !item.isFeatured) return false`
    | TextSearch(search: Option<string>, hindi: string, english: string)

  /** The search test: a substring of the Hindi text, or of the lower-cased English text. */
  predicate SearchMatches(hindi: string, english: string, search: string) {
    Contains(hindi, search) || Contains(Lower(english), Lower(search))
  }

  predicate Passes(c: Criterion, item: Item) {
    match c
    case FieldEquals(wanted, field) => !IsSet(wanted) || Get(Obj(item), field) == Str(wanted.value)
    case MustBeFeatured(featured) => featured != Some(true) || Truthy(Get(Obj(item), "isFeatured"))
    case TextSearch(search, hindi, english) => !IsSet(search) || SearchMatches(Text(item, hindi), Text(item, english), search.value)
  }

  /** The tests of each module's list filter, in source order. */
  function Criteria(ct: ContentType, p: QueryParams): seq<Criterion> {
    match ct
    case Exams => [FieldEquals(p.category, "category"), FieldEquals(p.status, "status"), TextSearch(p.search, "titleHindi", "title")]
    case Results => [FieldEquals(p.category, "category"), TextSearch(p.search, "titleHindi", "title")]
    case Institutions => [FieldEquals(p.kind, "type"), FieldEquals(p.city, "city"), MustBeFeatured(p.featured), TextSearch(p.search, "nameHindi", "name")]
    case Holidays => [FieldEquals(p.kind, "type"), TextSearch(p.search, "nameHindi", "name")]
    case Restaurants => [FieldEquals(p.kind, "type"), FieldEquals(p.city, "city"), MustBeFeatured(p.featured), TextSearch(p.search, "nameHindi", "name")]
    case FashionStores => [FieldEquals(p.kind, "type"), FieldEquals(p.category, "category"), MustBeFeatured(p.featured)]
    case ShoppingCentres => [FieldEquals(p.kind, "type"), MustBeFeatured(p.featured)]
    case Places => [FieldEquals(p.kind, "type"), MustBeFeatured(p.featured)]
    case Events => [FieldEquals(p.category, "category"), FieldEquals(p.status, "status"), FieldEquals(p.city, "city"), MustBeFeatured(p.featured), TextSearch(p.search, "titleHindi", "title")]
  }

  /** The filter lambda: the tests one after the other, the first failing one rejecting the item. */
  function AllPass(cs: seq<Criterion>, item: Item): (ok: bool)
    ensures ok <==> forall i :: 0 <= i < |cs| ==> Passes(cs[i], item)
  {
    if cs == [] then true
    else if !Passes(cs[0], item) then false
    else
      var ok := AllPass(cs[1..], item);
      assert forall i :: 1 <= i < |cs| ==> cs[i] == cs[1..][i - 1];
      ok
  }

  function MockFilter(ct: ContentType, p: QueryParams): Item -> bool {
    item => AllPass(Criteria(ct, p), item)
  }

  /** With no criterion given, every item passes. */
  lemma NoParamsKeepAll(ct: ContentType, item: Item)
    ensures MockFilter(ct, NoParams)(item)
  {
    var cs := Criteria(ct, NoParams);
    forall i | 0 <= i < |cs| ensures Passes(cs[i], item) {
    }
  }

  /** A list is the items passing every given criterion, paged. */
  lemma ListKeepsExactlyMatching(items: seq<Item>, ct: ContentType, p: QueryParams, k: nat)
    requires k < |items|
    ensures items[k] in Filtered(items, Some(MockFilter(ct, p)))
        <== forall i :: 0 <= i < |Criteria(ct, p)| ==> Passes(Criteria(ct, p)[i], items[k])
    ensures forall j :: 0 <= j < |Filtered(items, Some(MockFilter(ct, p)))| ==>
              forall i :: 0 <= i < |Criteria(ct, p)| ==> Passes(Criteria(ct, p)[i], Filtered(items, Some(MockFilter(ct, p)))[j])
  {
    var f := Filtered(items, Some(MockFilter(ct, p)));
    forall j | 0 <= j < |f| ensures forall i :: 0 <= i < |Criteria(ct, p)| ==> Passes(Criteria(ct, p)[i], f[j]) {
      assert MockFilter(ct, p)(f[j]);
    }
  }

  // ---- slug lookup and upcoming events ----

  /** `items.find((e) => e.slug === slug) || null`. */
  function FindBySlug(items: seq<Item>, slug: string): (r: Option<Item>)
    ensures r.Some? ==> exists k :: (0 <= k < |items| && items[k] == r.value && Get(Obj(items[k]), "slug") == Str(slug)
                                     && forall j :: 0 <= j < k ==> Get(Obj(items[j]), "slug") != Str(slug))
    ensures r.None? <==> forall k :: 0 <= k < |items| ==> Get(Obj(items[k]), "slug") != Str(slug)
  {
    var k := Find(items, (e: Item) => Get(Obj(e), "slug") == Str(slug));
    if k == -1 then None else Some(items[k])
  }

  /** `new Date(e.date) >= now && e.status === 'upcoming'`; a date that does not parse compares false. */
  function UpcomingTest(now: int, parseDate: string -> Option<int>): Item -> bool {
    (e: Item) => var t := parseDate(Text(e, "date")); t.Some? && t.value >= now && Get(Obj(e), "status") == Str("upcoming")
  }

  /** `new Date(e.date).getTime()`, 0 standing in for a date the upcoming test has already rejected. */
  function EventTime(parseDate: string -> Option<int>): Item -> int {
    (e: Item) => var t := parseDate(Text(e, "date")); if t.Some? then t.value else 0
  }

  /** `getUpcomingEvents(limit)` of the mock provider. */
  function UpcomingEvents(events: seq<Item>, now: int, limit: int, parseDate: string -> Option<int>): seq<Item> {
    Slice(SortBy(Filter(events, UpcomingTest(now, parseDate)), EventTime(parseDate)), 0, limit)
  }

  /** The store's upcoming events in ascending date order, before the take. */
  function SortedUpcoming(events: seq<Item>, now: int, parseDate: string -> Option<int>): seq<Item> {
    SortBy(Filter(events, UpcomingTest(now, parseDate)), EventTime(parseDate))
  }

  /**
   * At most `limit` events, each upcoming and not before now, in ascending date order, each one
   * of the store's; exactly `limit` of them when there are that many.
   */
  lemma UpcomingEventsSpec(events: seq<Item>, now: int, limit: int, parseDate: string -> Option<int>)
    ensures var r := UpcomingEvents(events, now, limit, parseDate);
            var n := |Filter(events, UpcomingTest(now, parseDate))|;
            limit >= 0 ==> |r| == (if limit < n then limit else n)
    ensures var r := UpcomingEvents(events, now, limit, parseDate);
            forall k :: 0 <= k < |r| ==> UpcomingTest(now, parseDate)(r[k]) && r[k] in events
    ensures SortedBy(UpcomingEvents(events, now, limit, parseDate), EventTime(parseDate))
    ensures var r := UpcomingEvents(events, now, limit, parseDate);
            r == SortedUpcoming(events, now, parseDate)[..|r|]
  {
    var up := Filter(events, UpcomingTest(now, parseDate));
    var sorted := SortBy(up, EventTime(parseDate));
    var to := RelativeIndex(limit, |sorted|);
    SliceFromStart(sorted, limit);
    assert UpcomingEvents(events, now, limit, parseDate) == sorted[..to];
    SortBySorted(up, EventTime(parseDate));
    SortedPrefix(sorted, EventTime(parseDate), to);
    SortByMembers(up, EventTime(parseDate));
    forall k | 0 <= k < to ensures UpcomingTest(now, parseDate)(sorted[k]) && sorted[k] in events {
      assert sorted[k] in up;
    }
  }

  /** The take keeps the earliest: an upcoming event left out is no earlier than any event returned. */
  lemma UpcomingEventsAreEarliest(events: seq<Item>, now: int, limit: int, parseDate: string -> Option<int>, e: Item)
    requires e in events && UpcomingTest(now, parseDate)(e)
    requires e !in UpcomingEvents(events, now, limit, parseDate)
    ensures var r := UpcomingEvents(events, now, limit, parseDate);
            forall k :: 0 <= k < |r| ==> EventTime(parseDate)(r[k]) <= EventTime(parseDate)(e)
  {
    var up := Filter(events, UpcomingTest(now, parseDate));
    var sorted := SortedUpcoming(events, now, parseDate);
    var r := UpcomingEvents(events, now, limit, parseDate);
    UpcomingEventsSpec(events, now, limit, parseDate);
    SortBySorted(up, EventTime(parseDate));
    var i :| 0 <= i < |events| && events[i] == e;
    assert e in up;
    assert e in multiset(up);
    assert e in multiset(sorted);
    var j :| 0 <= j < |sorted| && sorted[j] == e;
    forall k | 0 <= k < |r| ensures EventTime(parseDate)(r[k]) <= EventTime(parseDate)(e) {
      assert r[k] == sorted[k];
    }
  }

  // ---- the mock store ----

  /** The prefix of the ids `create` gives: `exam-${Date.now()}` and so on. */
  function IdPrefix(ct: ContentType): string {
    match ct
    case Exams => "exam"
    case Results => "result"
    case Institutions => "inst"
    case Holidays => "holiday"
    case Restaurants => "rest"
    case FashionStores => "fashion"
    case ShoppingCentres => "shop"
    case Places => "place"
    case Events => "event"
  }

  /** The message `update` throws for an unknown id. */
  function NotFoundMessage(ct: ContentType): string {
    match ct
    case Exams => "Exam not found"
    case Results => "Result not found"
    case Institutions => "Institution not found"
    case Holidays => "Holiday not found"
    case Restaurants => "Restaurant not found"
    case FashionStores => "Fashion store not found"
    case ShoppingCentres => "Shopping centre not found"
    case Places => "Famous place not found"
    case Events => "Event not found"
  }

  predicate HasId(item: Item, id: string) {
    Get(Obj(item), "id") == Str(id)
  }

  /** `items.findIndex((e) => e.id === id)`. */
  function IndexOfId(items: seq<Item>, id: string): (r: int)
    ensures -1 <= r < |items|
    ensures r >= 0 ==> HasId(items[r], id) && forall j :: 0 <= j < r ==> !HasId(items[j], id)
    ensures r == -1 <==> forall j :: 0 <= j < |items| ==> !HasId(items[j], id)
  {
    if items == [] then -1
    else if HasId(items[0], id) then 0
    else
      var k := IndexOfId(items[1..], id);
      assert forall j :: 1 <= j < |items| ==> items[j] == items[1..][j - 1];
      if k == -1 then -1 else k + 1
  }

  /** `items.filter((e) => e.id !== id)`. */
  function WithoutId(items: seq<Item>, id: string): (r: seq<Item>)
    ensures |r| <= |items|
    ensures forall k :: 0 <= k < |r| ==> !HasId(r[k], id)
  {
    if items == [] then [] else (if HasId(items[0], id) then [] else [items[0]]) + WithoutId(items[1..], id)
  }

  /** Deleting keeps every other item, in its original order. */
  lemma {:induction false} WithoutIdKeepsOthers(items: seq<Item>, id: string)
    ensures IsSubsequence(WithoutId(items, id), items)
    ensures forall k :: 0 <= k < |items| && !HasId(items[k], id) ==> items[k] in WithoutId(items, id)
  {
    if items != [] {
      WithoutIdKeepsOthers(items[1..], id);
      var rest := WithoutId(items[1..], id);
      if HasId(items[0], id) {
        assert WithoutId(items, id) == rest;
        SubsequenceDropHead(rest, items);
      } else {
        var r := WithoutId(items, id);
        assert r == [items[0]] + rest;
        assert r[0] == items[0] && r[1..] == rest;
      }
      forall k | 0 <= k < |items| && !HasId(items[k], id) ensures items[k] in WithoutId(items, id) {
        if k > 0 {
          assert items[k] == items[1..][k - 1];
        }
      }
    }
  }

  /** Deleting keeps every other item as many times as it occurs, and no item with the id. */
  lemma {:induction false} WithoutIdCounts(items: seq<Item>, id: string, x: Item)
    ensures multiset(WithoutId(items, id))[x] == if HasId(x, id) then 0 else multiset(items)[x]
  {
    if items != [] {
      WithoutIdCounts(items[1..], id, x);
      assert items == [items[0]] + items[1..];
      var head := if HasId(items[0], id) then [] else [items[0]];
      assert WithoutId(items, id) == head + WithoutId(items[1..], id);
      assert multiset(WithoutId(items, id)) == multiset(head) + multiset(WithoutId(items[1..], id));
    }
  }

  /** Deleting an id no item has changes nothing. */
  lemma {:induction false} WithoutAbsentId(items: seq<Item>, id: string)
    requires forall k :: 0 <= k < |items| ==> !HasId(items[k], id)
    ensures WithoutId(items, id) == items
  {
    if items != [] {
      WithoutAbsentId(items[1..], id);
      assert [items[0]] + items[1..] == items;
    }
  }

  /** `{ ...item, ...updates }`. */
  function Merge(item: Item, updates: Item): (r: Item)
    ensures r.Keys == item.Keys + updates.Keys
    ensures forall k :: k in updates ==> r[k] == updates[k]
    ensures forall k :: k in item && k !in updates ==> r[k] == item[k]
  {
    Spread(item, Obj(updates))
  }

  /** One module's array of the mock store, changed in place by create, update and delete. */
  class MockCollection {
    const kind: ContentType
    var items: seq<Item>

    constructor (kind: ContentType, initial: seq<Item>)
      ensures this.kind == kind && items == initial
    {
      this.kind := kind;
      items := initial;
    }

    /** `getExams(params)` and its siblings. */
    method List(p: QueryParams) returns (page: Page<Item>)
      ensures page == ApplyFiltersAndPagination(items, p, Some(MockFilter(kind, p)))
    {
      page := ApplyFiltersAndPagination(items, p, Some(MockFilter(kind, p)));
    }

    /** `getExamBySlug(slug)` and its siblings. */
    method BySlug(slug: string) returns (r: Option<Item>)
      ensures r == FindBySlug(items, slug)
    {
      r := FindBySlug(items, slug);
    }

    /** `getUpcomingEvents(limit)`, for the events array; `limit` defaults to 5. */
    method Upcoming(now: int, limit: Option<int>, parseDate: string -> Option<int>) returns (r: seq<Item>)
      ensures r == UpcomingEvents(items, now, limit.GetOr(5), parseDate)
    {
      r := UpcomingEvents(items, now, limit.GetOr(5), parseDate);
    }

    /** `createExam(exam)` and its siblings; `stamp` is the `Date.now()` the id is made from. */
    method Create(value: Item, stamp: nat) returns (created: Item)
      modifies this
      ensures created == value["id" := Str(IdPrefix(kind) + "-" + NatToString(stamp))]
      ensures items == old(items) + [created]
    {
      created := Merge(value, map["id" := Str(IdPrefix(kind) + "-" + NatToString(stamp))]);
      items := items + [created];
    }

    /** `updateExam(id, updates)` and its siblings: throws for an unknown id, else merges into the first item with it. */
    method Update(id: string, updates: Item) returns (r: Result<Item, string>)
      modifies this
      ensures IndexOfId(old(items), id) == -1 ==> r == Err(NotFoundMessage(kind)) && items == old(items)
      ensures var i := IndexOfId(old(items), id);
              i >= 0 ==> items == old(items)[i := Merge(old(items)[i], updates)] && r == Ok(items[i])
    {
      var index := IndexOfId(items, id);
      if index == -1 {
        return Err(NotFoundMessage(kind));
      }
      items := items[index := Merge(items[index], updates)];
      r := Ok(items[index]);
    }

    /** `deleteExam(id)` and its siblings. */
    method Delete(id: string)
      modifies this
      ensures items == WithoutId(old(items), id)
    {
      items := WithoutId(items, id);
    }
  }

  /** After a create the store is one longer, ends with the new item, and starts with what it had. */
  lemma CreateAppends(before: seq<Item>, created: Item)
    ensures |before + [created]| == |before| + 1 && (before + [created])[|before|] == created
    ensures (before + [created])[..|before|] == before
  {
  }

  /** An update keeps the length, changes only the index it found, and there overwrites just the updated fields. */
  lemma UpdateChangesOnlyTarget(before: seq<Item>, id: string, updates: Item)
    requires IndexOfId(before, id) >= 0
    ensures var i := IndexOfId(before, id);
            var after := before[i := Merge(before[i], updates)];
            |after| == |before|
            && (forall j :: 0 <= j < |before| && j != i ==> after[j] == before[j])
            && (forall k :: k in updates ==> after[i][k] == updates[k])
            && (forall k :: k in before[i] && k !in updates ==> after[i][k] == before[i][k])
  {
  }

  // ---- the REST provider ----

  /** The `moduleType` each content type is stored under. */
  function ModuleType(ct: ContentType): string {
    match ct
    case Exams => "exam"
    case Results => "result"
    case Institutions => "institution"
    case Holidays => "holiday"
    case Restaurants => "restaurant"
    case FashionStores => "fashion-store"
    case ShoppingCentres => "shopping-centre"
    case Places => "famous-place"
    case Events => "event"
  }

  /** The twelve guarded assignments of `buildQuery`, in source order. */
  function RestQueryTable(p: QueryParams): (t: seq<(bool, string, Value)>)
    ensures |t| == 12
  {
    [(IsSet(p.category), "category", Str(p.category.GetOr(""))),
     (IsSet(p.subcategory), "subcategory", Str(p.subcategory.GetOr(""))),
     (IsSet(p.city), "city", Str(p.city.GetOr(""))),
     (IsSet(p.district), "district", Str(p.district.GetOr(""))),
     (p.featured.Some?, "featured", Bool(p.featured.GetOr(false))),
     (p.popular.Some?, "popular", Bool(p.popular.GetOr(false))),
     (p.limit.Some?, "limit", Num(p.limit.GetOr(0))),
     (p.offset.Some?, "offset", Num(p.offset.GetOr(0))),
     (IsSet(p.search), "search", Str(p.search.GetOr(""))),
     (IsSet(p.status), "status", Str(p.status.GetOr(""))),
     (IsSet(p.orderBy), "orderBy", Str(p.orderBy.GetOr(""))),
     (IsSet(p.order), "order", Str(p.order.GetOr("")))]
  }

  /** `buildQuery(moduleType, params)`: the record's entries in insertion order, `moduleType` first. */
  method BuildQuery(moduleType: string, params: Option<QueryParams>) returns (query: seq<(string, Value)>)
    ensures |query| >= 1 && query[0] == ("moduleType", Str(moduleType))
    ensures params.None? ==> query == [("moduleType", Str(moduleType))]
    ensures params.Some? ==> query[1..] == StrapiExtended.Applied(RestQueryTable(params.value))
  {
    query := [("moduleType", Str(moduleType))];
    if params.None? {
      return;
    }
    query := StrapiExtended.PushFilters(query, RestQueryTable(params.value));
  }

  /** A key is in the REST query exactly when its parameter is given; `featured`, `popular`, `limit` and `offset` count when defined, even as `false` or 0. */
  lemma RestQueryKeys(p: QueryParams, j: nat)
    requires j < 12
    ensures RestQueryTable(p)[j].0 ==> (RestQueryTable(p)[j].1, RestQueryTable(p)[j].2) in StrapiExtended.Applied(RestQueryTable(p))
    ensures p.featured == Some(false) ==> ("featured", Bool(false)) in StrapiExtended.Applied(RestQueryTable(p))
    ensures p.limit == Some(0) ==> ("limit", Num(0)) in StrapiExtended.Applied(RestQueryTable(p))
  {
    StrapiExtended.AppliedExactly(RestQueryTable(p));
    assert RestQueryTable(p)[4].1 == "featured" && RestQueryTable(p)[6].1 == "limit";
  }

  /**
   * `next = {...params}; if (next.type && !next.X) next.X = next.type; delete next.type`, where X is
   * `subcategory` for fashion stores and `category` for the other modules that have a type.
   */
  function RemapType(p: QueryParams, intoSubcategory: bool): (r: QueryParams)
    ensures r.kind.None?
    ensures !intoSubcategory ==> r.category == (if IsSet(p.kind) && !IsSet(p.category) then p.kind else p.category)
    ensures !intoSubcategory ==> r == p.(kind := None, category := r.category)
    ensures intoSubcategory ==> r.subcategory == (if IsSet(p.kind) && !IsSet(p.subcategory) then p.kind else p.subcategory)
    ensures intoSubcategory ==> r == p.(kind := None, subcategory := r.subcategory)
  {
    if intoSubcategory then
      p.(kind := None, subcategory := if IsSet(p.kind) && !IsSet(p.subcategory) then p.kind else p.subcategory)
    else
      p.(kind := None, category := if IsSet(p.kind) && !IsSet(p.category) then p.kind else p.category)
  }

  /** The parameters the REST provider's list call sends for a module. */
  function RestListParams(ct: ContentType, p: QueryParams): QueryParams {
    match ct
    case Exams => p
    case Results => p
    case Events => p
    case FashionStores => RemapType(p, true)
    case _ => RemapType(p, false)
  }

  /** A type filter never reaches the REST query: it is sent as the category or subcategory, or not at all. */
  lemma RestListDropsType(ct: ContentType, p: QueryParams)
    requires !ct.Exams? && !ct.Results? && !ct.Events?
    ensures RestListParams(ct, p).kind.None?
    ensures IsSet(p.kind) ==> IsSet(RestListParams(ct, p).category) || IsSet(RestListParams(ct, p).subcategory)
  {
  }

  /** An upstream reply: its status and its parsed body. */
  datatype Reply = Reply(status: int, body: Value)

  /** The REST provider's `fetchJson`: `None` is `null`, and `Err` carries the thrown message. */
  function RestFetch(reply: Reply): (r: Result<Value, string>)
    ensures reply.status == 204 ==> r == Ok(Null)
    ensures reply.status == 404 ==> r == Ok(Null)
    ensures r.Err? <==> !(200 <= reply.status < 300) && reply.status != 404
    ensures r.Err? ==> r.error == "Request failed with status " + IntToString(reply.status)
    ensures r.Ok? && reply.status != 204 && reply.status != 404 ==> r.value == reply.body
  {
    if reply.status == 204 then Ok(Null)
    else if !(200 <= reply.status < 300) then
      if reply.status == 404 then Ok(Null) else Err("Request failed with status " + IntToString(reply.status))
    else Ok(reply.body)
  }

  /** `getItems`: a missing (falsy) result is an empty first page of size `params.limit || 10`. */
  function RestItems(result: Value, decode: Value -> Page<Item>, p: QueryParams): (r: Page<Item>)
    ensures !Truthy(result) ==> r == Page([], 0, 1, PageLimit(p), 0)
    ensures Truthy(result) ==> r == decode(result)
  {
    if !Truthy(result) then Page([], 0, 1, PageLimit(p), 0) else decode(result)
  }

  /** `createItem`/`updateItem`: a falsy result throws with the given message. */
  function RequireResult(result: Value, message: string): (r: Result<Value, string>)
    ensures r.Ok? <==> Truthy(result)
    ensures r.Ok? ==> r.value == result
    ensures r.Err? ==> r.error == message
  {
    if Truthy(result) then Ok(result) else Err(message)
  }

  /** The REST `getUpcomingEvents(limit)` query: upcoming events ordered by ascending date. */
  function RestUpcomingParams(limit: int): (r: QueryParams)
    ensures r.status == Some("upcoming") && r.orderBy == Some("date") && r.order == Some("asc") && r.limit == Some(limit)
    ensures r.category.None? && r.search.None? && r.offset.None?
  {
    NoParams.(status := Some("upcoming"), orderBy := Some("date"), order := Some("asc"), limit := Some(limit))
  }

  // ---- the provider cache ----

  /** The provider `getExtendedCMSProvider` builds for a configuration. */
  datatype Choice = MockChoice | StrapiChoice(baseUrl: string, token: string) | RestChoice(baseUrl: string, token: string)

  /** Which provider a configuration calls for, built afresh. */
  function Choose(c: Config): (r: Choice)
    ensures c.provider == Strapi && HasBaseUrl(c) ==> r == StrapiChoice(c.baseUrl.value, Token(c))
    ensures r.RestChoice? <==> c.provider !in {Strapi, Mock, WordPress} && HasBaseUrl(c)
    ensures r.MockChoice? <==> !HasBaseUrl(c) || c.provider in {Mock, WordPress}
  {
    if c.provider == Strapi && HasBaseUrl(c) then StrapiChoice(c.baseUrl.value, Token(c))
    else if c.provider != Mock && c.provider != WordPress && HasBaseUrl(c) then RestChoice(c.baseUrl.value, Token(c))
    else MockChoice
  }

  /** The cache key as the source writes it: `${provider}:${baseUrl}:${apiKey || ''}`. */
  function CacheKeyAsWritten(c: Config): string
    requires HasBaseUrl(c)
  {
    NameText(c.provider) + ":" + c.baseUrl.value + ":" + Token(c)
  }

  lemma CollidingConfigs(u1: string, k1: string, u2: string, k2: string)
    requires u1 == "http://h" && k1 == "8080:t" && u2 == "http://h:8080" && k2 == "t"
    ensures CacheKeyAsWritten(Config(Strapi, Some(u1), Some(k1))) == CacheKeyAsWritten(Config(Strapi, Some(u2), Some(k2)))
  {
    assert u1 + ":" + k1 == u2 + ":" + k2;
    assert NameText(Strapi) + ":" + u1 + ":" + k1 == NameText(Strapi) + ":" + (u1 + ":" + k1);
    assert NameText(Strapi) + ":" + u2 + ":" + k2 == NameText(Strapi) + ":" + (u2 + ":" + k2);
  }

  /**
   * Two different configurations share an as-written key: after the first, the cache would hand
   * the second a provider holding the first one's base URL and token.
   */
  lemma CacheKeyAsWrittenCollides()
    ensures exists c1: Config, c2: Config :: HasBaseUrl(c1) && HasBaseUrl(c2)
              && CacheKeyAsWritten(c1) == CacheKeyAsWritten(c2) && Choose(c1) != Choose(c2)
  {
    var c1 := Config(Strapi, Some("http://h"), Some("8080:t"));
    var c2 := Config(Strapi, Some("http://h:8080"), Some("t"));
    CollidingConfigs("http://h", "8080:t", "http://h:8080", "t");
    assert Choose(c1).baseUrl != Choose(c2).baseUrl by {
      assert |Choose(c1).baseUrl| != |Choose(c2).baseUrl|;
    }
  }

  /** The intended key: the provider, base URL and token themselves. */
  datatype CacheKey = CacheKey(provider: ProviderName, baseUrl: string, token: string)

  function KeyOf(c: Config): CacheKey
    requires HasBaseUrl(c)
  {
    CacheKey(c.provider, c.baseUrl.value, Token(c))
  }

  /** Configurations with the same key call for the same provider, so a cache hit is never stale. */
  lemma KeyDeterminesChoice(c1: Config, c2: Config)
    requires HasBaseUrl(c1) && HasBaseUrl(c2) && KeyOf(c1) == KeyOf(c2)
    ensures Choose(c1) == Choose(c2)
  {
  }

  /** `cachedProviderKey`/`cachedProvider`, with the key compared field by field. */
  class ProviderCache {
    var cachedKey: Option<CacheKey>
    var cached: Option<Choice>

    /** Both slots record the same build: a cached provider is the one its key calls for. */
    ghost predicate Valid()
      reads this
    {
      (cachedKey.Some? <==> cached.Some?)
      && (cachedKey.Some? ==> cached.value == Choose(Config(cachedKey.value.provider, Some(cachedKey.value.baseUrl), Some(cachedKey.value.token))))
    }

    constructor ()
      ensures Valid() && cachedKey.None? && cached.None?
    {
      cachedKey := None;
      cached := None;
    }

    /** `getExtendedCMSProvider()`: the cached provider when the key matches, else a new one that is cached. */
    method Get(c: Config) returns (p: Choice)
      requires Valid()
      modifies this
      ensures Valid()
      ensures p == Choose(c)
      ensures p.MockChoice? ==> cachedKey == old(cachedKey) && cached == old(cached)
      ensures !p.MockChoice? ==> cachedKey == Some(KeyOf(c)) && cached == Some(p)
    {
      if HasBaseUrl(c) && c.provider != Mock && c.provider != WordPress {
        var key := KeyOf(c);
        KeyDeterminesChoice(c, Config(key.provider, Some(key.baseUrl), Some(key.token)));
        if cached.None? || cachedKey != Some(key) {
          cachedKey := Some(key);
          cached := Some(Choose(c));
        }
        p := cached.value;
      } else {
        p := MockChoice;
      }
    }
  }
}
