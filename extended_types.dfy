/** The query parameters every content listing of the extended CMS accepts; unset fields are `None`. */
module ExtendedTypes {
  import opened Wrappers

  datatype QueryParams = QueryParams(
    limit: Option<int>,
    offset: Option<int>,
    orderBy: Option<string>,
    order: Option<string>,
    category: Option<string>,
    subcategory: Option<string>,
    kind: Option<string>,
    city: Option<string>,
    district: Option<string>,
    status: Option<string>,
    applicationStatus: Option<string>,
    resultStatus: Option<string>,
    featured: Option<bool>,
    popular: Option<bool>,
    dateFrom: Option<string>,
    dateTo: Option<string>,
    search: Option<string>)

  /** `params = {}`. */
  const NoParams := QueryParams(None, None, None, None, None, None, None, None, None, None, None, None, None, None, None, None, None)

  /** A string parameter passes an `if (params.x)` test: it is set and non-empty. */
  predicate IsSet(o: Option<string>) {
    o.Some? && o.value != ""
  }

  /** `o || fallback` for an optional string. */
  function OrElse(o: Option<string>, fallback: string): (r: string)
    ensures IsSet(o) ==> r == o.value
    ensures !IsSet(o) ==> r == fallback
  {
    if IsSet(o) then o.value else fallback
  }
}
