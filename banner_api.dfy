/** The banner API slice: list, create, update, status update and delete, all under the one tag
    type "Banner". */
module BannerApi {
  import opened Wrappers
  import opened JsText
  import opened Http

  datatype Endpoint = GetBanners | CreateBanner | UpdateBanner | UpdateBannerStatus | DeleteBanner

  predicate IsMutation(e: Endpoint) {
    !e.GetBanners?
  }

  /** `getBanners` provides "Banner"; each of the four mutations invalidates it. */
  function Effect(e: Endpoint): (r: CacheEffect)
    ensures r.Provides? <==> !IsMutation(e)
    ensures r.Provides? ==> r.provided == {BannerTag}
    ensures r.Invalidates? ==> r.invalidated == {BannerTag}
  {
    if IsMutation(e) then Invalidates({BannerTag}) else Provides({BannerTag})
  }

  /** Whatever a mutation changes, the banner list is fetched again afterwards. */
  lemma EveryMutationRefetchesBanners(m: Endpoint)
    requires IsMutation(m)
    ensures Refetches(Effect(m), Effect(GetBanners))
  {
    assert BannerTag in Effect(m).invalidated * Effect(GetBanners).provided;
  }

  const CollectionPath := "/banners"
  const UpdatePath := "/banner/"
  const StatusPath := "/banners/status/"
  const ItemPath := "/banners/"

  function GetBannersRequest(): (r: Request)
    ensures r.url == CollectionPath && r.verb == GET && r.body == NoBody
  {
    Get("/banners")
  }

  /** `createBanner(formData)`: POST to the collection with the form data as the body. */
  function CreateBannerRequest(form: seq<FormEntry>): (r: Request)
    ensures r.url == GetBannersRequest().url && r.verb == POST && r.params == []
    ensures r.body.FormBody? && r.body.entries == form
  {
    Request("/banners", POST, [], FormBody(form))
  }

  /** `updateBanner({ id, formData })`: PATCH addressed by the id under the singular
      "/banner/", so never a path under "/banners", where the list, the status updates and the
      deletions are addressed. */
  function UpdateBannerRequest(id: string, form: seq<FormEntry>): (r: Request)
    ensures UpdatePath <= r.url && r.url[|UpdatePath|..] == id
    ensures r.verb == PATCH && r.params == [] && r.body == FormBody(form)
    ensures !(ItemPath <= r.url) && !(CollectionPath <= r.url)
  {
    UpdatePathIsSingular(id);
    Request(UpdatePath + id, PATCH, [], FormBody(form))
  }

  /** Whatever the id, the update path lies outside "/banners": its eighth character is the
      '/' that ends "/banner/", where the collection path has 's'. */
  lemma UpdatePathIsSingular(id: string)
    ensures !(ItemPath <= UpdatePath + id) && !(CollectionPath <= UpdatePath + id)
  {
    var u := UpdatePath + id;
    assert u[7] == '/';
    assert ItemPath[7] == 's' && CollectionPath[7] == 's';
  }

  /** The input of `updateBannerStatus`: the banner's `_id` (possibly missing) and the status to
      set. */
  datatype StatusUpdate = StatusUpdate(id: Option<string>, status: bool)

  /** The JSON body of a status update: the whole input, id included; a missing id is left out,
      as `JSON.stringify` drops `undefined`. */
  function StatusBody(data: StatusUpdate): (fields: seq<(string, JsonValue)>)
    ensures 1 <= |fields| <= 2
    ensures data.id.Some? <==> |fields| == 2
    ensures fields[|fields| - 1] == ("status", JBool(data.status))
    ensures data.id.Some? ==> fields[0] == ("id", JString(data.id.value))
  {
    match data.id
    case Some(id) => [("id", JString(id)), ("status", JBool(data.status))]
    case None => [("status", JBool(data.status))]
  }

  /** `updateBannerStatus(data)`: PATCH of "/banners/status/${data?.id}"; a missing id makes the
      path end in "undefined". */
  function UpdateStatusRequest(data: StatusUpdate): (r: Request)
    ensures StatusPath <= r.url && r.url[|StatusPath|..] == Interpolate(data.id)
    ensures r.verb == PATCH && r.params == [] && r.body == JsonBody(StatusBody(data))
  {
    Request(StatusPath + Interpolate(data.id), PATCH, [], JsonBody(StatusBody(data)))
  }

  /** `deleteBanner(id)`: DELETE of "/banners/{id}". */
  function DeleteBannerRequest(id: string): (r: Request)
    ensures ItemPath <= r.url && r.url[|ItemPath|..] == id
    ensures r.verb == DELETE && r.params == [] && r.body == NoBody
  {
    Request(ItemPath + id, DELETE, [], NoBody)
  }
}
