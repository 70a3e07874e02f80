/** The background-check API slice: the list of checks, the check fee and its update, and the
    status update of one check. All four endpoints share the one tag type "BackgroundCheck". */
module VerifyApi {
  import opened Wrappers
  import opened UrlEncoding
  import opened QueryParams
  import opened Http

  /** The endpoints of the slice. */
  datatype Endpoint =
    | GetAllBackgroundChecks
    | GetBackgroundCheckFee
    | UpdateBackgroundCheckFee
    | UpdateBackgroundCheckStatus

  predicate IsMutation(e: Endpoint) {
    e.UpdateBackgroundCheckFee? || e.UpdateBackgroundCheckStatus?
  }

  /** The tags each endpoint declares: the queries provide "BackgroundCheck" and the mutations
      invalidate it. */
  function Effect(e: Endpoint): (r: CacheEffect)
    ensures r.Provides? <==> !IsMutation(e)
    ensures r.Provides? ==> r.provided == {BackgroundCheckTag}
    ensures r.Invalidates? ==> r.invalidated == {BackgroundCheckTag}
  {
    if IsMutation(e) then Invalidates({BackgroundCheckTag}) else Provides({BackgroundCheckTag})
  }

  /** Every mutation of the slice makes every query of the slice refetch; in particular a fee
      update refetches the list of checks. */
  lemma MutationsRefetchEveryQuery(m: Endpoint, q: Endpoint)
    requires IsMutation(m) && !IsMutation(q)
    ensures Refetches(Effect(m), Effect(q))
  {
    assert BackgroundCheckTag in Effect(m).invalidated * Effect(q).provided;
  }

  /** `getAllBackgroundChecks(params)`: GET "/checkr" with the parameter list turned into an
      object. A name given once or more is sent with the value of its last entry; a name never
      given is not sent. */
  function GetAllChecksRequest(params: seq<QueryParam>): (r: Request)
    ensures r.url == "/checkr" && r.verb == GET && r.body == NoBody
    ensures r.params == FromEntries(Entries(params))
    ensures forall n :: |Values(Entries(params), n)| <= 1 ==> Values(r.params, n) == Values(Entries(params), n)
  {
    ObjectKeepsSingleValues(params);
    Request("/checkr", GET, FromEntries(Entries(params)), NoBody)
  }

  /** `getBackgroundCheckFee()`: a bare GET of the fee. */
  function GetFeeRequest(): (r: Request)
    ensures r.url == "/background-check-fee" && r.verb == GET && r.params == [] && r.body == NoBody
  {
    Get("/background-check-fee")
  }

  /** `updateBackgroundCheckFee(data)`: POST to the same path the fee is read from, with the
      input passed on unchanged as the JSON body. */
  function UpdateFeeRequest(data: seq<(string, JsonValue)>): (r: Request)
    ensures r.url == GetFeeRequest().url && r.verb == POST && r.params == []
    ensures r.body.JsonBody? && r.body.fields == data
  {
    Request("/background-check-fee", POST, [], JsonBody(data))
  }

  const StatusPath := "/checkr/"

  /** `updateBackgroundCheckStatus({ id, data })`: PATCH of one check, addressed by the id under
      "/checkr/", with `data` as the body. */
  function UpdateStatusRequest(id: string, data: seq<(string, JsonValue)>): (r: Request)
    ensures StatusPath <= r.url && r.url[|StatusPath|..] == id
    ensures r.verb == PATCH && r.params == [] && r.body == JsonBody(data)
  {
    Request(StatusPath + id, PATCH, [], JsonBody(data))
  }

  /** Different checks are patched at different URLs, and never at the list's own URL. */
  lemma UpdateStatusTargetsOneCheck(id1: string, id2: string, data1: seq<(string, JsonValue)>, data2: seq<(string, JsonValue)>)
    ensures UpdateStatusRequest(id1, data1).url == UpdateStatusRequest(id2, data2).url <==> id1 == id2
    ensures UpdateStatusRequest(id1, data1).url != GetAllChecksRequest([]).url
  {
    var u1 := UpdateStatusRequest(id1, data1).url;
    var u2 := UpdateStatusRequest(id2, data2).url;
    if u1 == u2 {
      assert id1 == u1[|StatusPath|..] == u2[|StatusPath|..] == id2;
    }
    assert |u1| > |"/checkr"|;
  }
}
