/**
 * What the resource operations hand to doRequest: an HTTP method and a
 * path under the client's endpoint. Item paths are fmt.Sprintf("%s/%s",
 * collection, uuid); list paths are the collection and, for non-nil
 * options, buildQueryString's result.
 */
module Requests {
  import opened Wrappers
  import opened Options
  import opened Auth
  import opened WatcherClient
  import Query

  const MethodGet: string := "GET"
  const MethodPost: string := "POST"
  const MethodPatch: string := "PATCH"
  const MethodDelete: string := "DELETE"

  datatype Request = Request(httpMethod: string, path: string)

  /** The path of one item of a collection. */
  function ItemPath(collection: string, uuid: string): string {
    collection + "/" + uuid
  }

  /** The uuid an item path names, if it is an item path of `collection`. */
  function ItemUUID(collection: string, path: string): Option<string> {
    var prefix := collection + "/";
    if |prefix| <= |path| && path[..|prefix|] == prefix then Some(path[|prefix|..]) else None
  }

  /** Item paths name their uuid: reading the uuid back gives it. */
  lemma ItemPathRoundTrip(collection: string, uuid: string)
    ensures ItemUUID(collection, ItemPath(collection, uuid)) == Some(uuid)
  {
    var p := ItemPath(collection, uuid);
    assert p[..|collection| + 1] == collection + "/";
    assert p[|collection| + 1..] == uuid;
  }

  /** Different uuids give different paths. */
  lemma ItemPathInjective(collection: string, a: string, b: string)
    ensures ItemPath(collection, a) == ItemPath(collection, b) <==> a == b
  {
    ItemPathRoundTrip(collection, a);
    ItemPathRoundTrip(collection, b);
  }

  /** A list path without options is the collection itself; with options it
    * is the collection followed by the query string, which is empty or
    * starts with "?". */
  method ListRequest(collection: string, opts: Option<ListOptions>, escape: string -> string) returns (req: Request)
    ensures req == Request(MethodGet, collection + Query.QueryString(opts, escape))
  {
    var path := collection;
    if opts.Some? {
      var q := Query.BuildQueryString(opts, escape);
      path := path + q;
    }
    return Request(MethodGet, path);
  }

  /** doRequest with the request's method and path; the body rides along
    * unmodelled. */
  method Send(c: Client, req: Request, now: int, http: seq<Reply>, idp: seq<IdentityOutcome>)
    returns (r: Result<Response, Errors.Error>, trace: seq<Event>)
    modifies Footprint(c.authenticator)
    ensures var x := Exchange(old(c.View()), Call(req.httpMethod, c.endpoint + req.path, c.VersionHeader()), now, http, idp);
      r == x.result && trace == x.trace && c.View() == x.view
  {
    r, trace := c.DoRequest(req.httpMethod, req.path, now, http, idp);
  }
}
