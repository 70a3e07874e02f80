/** `useUpdateSearchParams`: one query parameter set or removed in one navigation. */
module SingleSearchParams {
  import opened Wrappers
  import opened JsText
  import opened UrlEncoding
  import MultiSearchParams

  /** A truthy value (a non-empty string) is set; `null` and "" both remove the key. */
  function SingleUpdate(list: seq<Pair>, key: string, value: Option<string>): (r: seq<Pair>)
    ensures value.Some? && Truthy(value.value) ==> Values(r, key) == [value.value]
    ensures !(value.Some? && Truthy(value.value)) ==> Values(r, key) == []
    ensures forall other :: other != key ==> Values(r, other) == Values(list, other)
  {
    if value.Some? && Truthy(value.value) then SetPairs(list, key, value.value) else DeleteAll(list, key)
  }

  /** The hook: one `set` or `delete` on the pairs of the current query, then the pushed path. */
  method UpdateSearchParams(pathname: string, search: seq<Pair>, key: string, value: Option<string>)
    returns (newPath: string, params: seq<Pair>)
    ensures params == SingleUpdate(search, key, value)
    ensures newPath == pathname + "?" + Serialize(params)
  {
    var searchParams := new SearchParams(search);
    if value.Some? && Truthy(value.value) {
      searchParams.Set(key, value.value);
    } else {
      searchParams.Delete(key);
    }
    params := searchParams.list;
    newPath := pathname + "?" + searchParams.ToString();
  }

  /** The two hooks part ways on "": the single-key hook removes the key, the multi-key hook
      keeps it with the empty value. On any other string they agree. */
  lemma EmptyStringDiffers(list: seq<Pair>, key: string, value: string)
    ensures Values(SingleUpdate(list, key, Some("")), key) == []
    ensures Values(MultiSearchParams.ApplyUpdates(list, [(key, Some(""))]), key) == [""]
    ensures value != "" ==> SingleUpdate(list, key, Some(value)) == MultiSearchParams.ApplyUpdates(list, [(key, Some(value))])
    ensures SingleUpdate(list, key, None) == MultiSearchParams.ApplyUpdates(list, [(key, None)])
  {
    MultiSearchParams.EmptyStringIsSet(list, key);
    assert [(key, Some(value))][..0] == [];
    var del: seq<MultiSearchParams.Update> := [(key, None)];
    assert del[..0] == [];
  }
}
