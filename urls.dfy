/**
 * The parts of a WHATWG URL record that the site reads after `new URL(...)`. Parsing and
 * resolution themselves are not modelled: callers receive them as functions.
 */
module Urls {
  import opened Wrappers

  /**
   * A parsed URL: `protocol` keeps its trailing `:`, `credentials` is the `user:pass@` part
   * (usually empty), `query` is the list behind `searchParams`.
   */
  datatype Url = Url(
    protocol: string,
    credentials: string,
    hostname: string,
    port: string,
    pathname: string,
    search: string,
    hash: string,
    query: seq<(string, string)>)

  /** `new URL(text)`: a URL record, or `None` where the constructor throws. */
  type Parser = string -> Option<Url>

  /** `new URL(url, base).toString()`, or `None` where the constructor throws. */
  type Resolver = (string, string) -> Option<string>

  /** `u.host`: the host name, then `:port` when a port is present. */
  function Host(u: Url): string {
    u.hostname + (if u.port == "" then "" else ":" + u.port)
  }

  /** `u.toString()` for a URL with a host. */
  function Href(u: Url): string {
    u.protocol + "//" + u.credentials + Host(u) + u.pathname + u.search + u.hash
  }

  /** `u.searchParams.get(name)`: the value of the first pair with that name. */
  function SearchParam(u: Url, name: string): (r: Option<string>)
  {
    FirstValue(u.query, name)
  }

  function FirstValue(pairs: seq<(string, string)>, name: string): (r: Option<string>)
    ensures r.Some? ==> exists k :: 0 <= k < |pairs| && pairs[k] == (name, r.value)
    ensures r.None? ==> forall k :: 0 <= k < |pairs| ==> pairs[k].0 != name
  {
    if pairs == [] then None
    else if pairs[0].0 == name then Some(pairs[0].1)
    else
      var r := FirstValue(pairs[1..], name);
      assert forall k :: 1 <= k < |pairs| ==> pairs[k] == pairs[1..][k - 1];
      r
  }
}
