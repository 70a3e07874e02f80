/** The request descriptors the API slices return and the cache tags they declare. The slices
    hand these to the shared base query; the fetching itself is outside this model. */
module Http {
  import opened JsNumbers
  import opened UrlEncoding

  datatype Method = GET | POST | PATCH | DELETE

  /** A browser `File`: only what the dashboard looks at. */
  datatype File = File(name: string, mimeType: string, size: nat)

  /** One `FormData.append` call. A `JsonEntry` appends `JSON.stringify` of an object whose
      properties, in order, are `fields`; its text is `JsonText.StringifyObject(fields)`. */
  datatype FormEntry =
    | TextEntry(name: string, text: string)
    | JsonEntry(name: string, fields: seq<(string, string)>)
    | FileEntry(name: string, file: File)

  /** The values a JSON request body is built from. */
  datatype JsonValue = JString(s: string) | JNumber(n: JsNumber) | JBool(b: bool) | JNull

  datatype Body =
    | NoBody
    | FormBody(entries: seq<FormEntry>)
    | JsonBody(fields: seq<(string, JsonValue)>)

  /** What an endpoint's `query` returns: `{ url, method, params, body }`, with the method
      named `verb` here. */
  datatype Request = Request(url: string, verb: Method, params: seq<Pair>, body: Body)

  /** An endpoint whose `query` returns a bare URL string: a GET with no parameters or body. */
  function Get(url: string): (r: Request)
    ensures r.url == url && r.verb == GET && r.params == [] && r.body == NoBody
  {
    Request(url, GET, [], NoBody)
  }

  /** The cache tag types the slices declare. */
  datatype Tag = BackgroundCheckTag | BannerTag | DashboardTag

  /** A query provides tags; a mutation invalidates them. */
  datatype CacheEffect = Provides(provided: set<Tag>) | Invalidates(invalidated: set<Tag>)

  /** A completed mutation makes the cache refetch a query when one of the tags it invalidates
      is one the query provides. */
  predicate Refetches(mutation: CacheEffect, query: CacheEffect) {
    mutation.Invalidates? && query.Provides? && mutation.invalidated * query.provided != {}
  }

  /** The names of the form entries, in append order. */
  function FormNames(entries: seq<FormEntry>): (r: seq<string>)
    ensures |r| == |entries|
    ensures forall i :: 0 <= i < |entries| ==> r[i] == entries[i].name
  {
    if entries == [] then [] else [entries[0].name] + FormNames(entries[1..])
  }
}
