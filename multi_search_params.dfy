/** `useUpdateMultiSearchParams`: several query parameters set or removed in one navigation. */
module MultiSearchParams {
  import opened Wrappers
  import opened UrlEncoding

  /** One `[key, value]` entry of the updates record: a string to set, or `null` (None) to
      delete. */
  type Update = (string, Option<string>)

  /** The effect of one update on the parameter list. */
  function ApplyUpdate(list: seq<Pair>, u: Update): seq<Pair> {
    match u.1
    case Some(v) => SetPairs(list, u.0, v)
    case None => DeleteAll(list, u.0)
  }

  /** The parameter list after the updates, applied in order. */
  function ApplyUpdates(list: seq<Pair>, updates: seq<Update>): seq<Pair> {
    if updates == [] then list
    else ApplyUpdate(ApplyUpdates(list, updates[..|updates| - 1]), updates[|updates| - 1])
  }

  /** The last update naming `key`, if any. */
  function LastUpdate(updates: seq<Update>, key: string): Option<Option<string>> {
    if updates == [] then None
    else if updates[|updates| - 1].0 == key then Some(updates[|updates| - 1].1)
    else LastUpdate(updates[..|updates| - 1], key)
  }

  /** What the updates promise about one key: untouched when no update names it, otherwise
      exactly the value of its last update, or nothing when that update is `null`. */
  function ExpectedValues(list: seq<Pair>, updates: seq<Update>, key: string): seq<string> {
    match LastUpdate(updates, key)
    case None => Values(list, key)
    case Some(None) => []
    case Some(Some(v)) => [v]
  }

  /** The parameter list after the updates holds, for every key, the values the updates
      promise. */
  lemma {:induction false} ApplyUpdatesValues(list: seq<Pair>, updates: seq<Update>, key: string)
    ensures Values(ApplyUpdates(list, updates), key) == ExpectedValues(list, updates, key)
  {
    if updates != [] {
      ApplyUpdatesValues(list, updates[..|updates| - 1], key);
    }
  }

  /** The hook: starts from the pairs of the current location's query, applies each update
      with `set` or `delete`, and returns the path it pushes: the current pathname, '?' and the
      serialized parameters ('?' included even when none remain). */
  method UpdateMultiSearchParams(pathname: string, search: seq<Pair>, updates: seq<Update>)
    returns (newPath: string, params: seq<Pair>)
    ensures params == ApplyUpdates(search, updates)
    ensures forall key :: Values(params, key) == ExpectedValues(search, updates, key)
    ensures newPath == pathname + "?" + Serialize(params)
  {
    var searchParams := new SearchParams(search);
    var i := 0;
    while i < |updates|
      invariant 0 <= i <= |updates|
      invariant searchParams.list == ApplyUpdates(search, updates[..i])
    {
      var (key, value) := updates[i];
      assert updates[..i + 1][..i] == updates[..i];
      match value {
        case Some(v) => searchParams.Set(key, v);
        case None => searchParams.Delete(key);
      }
      i := i + 1;
    }
    assert updates[..|updates|] == updates;
    params := searchParams.list;
    newPath := pathname + "?" + searchParams.ToString();
    forall key ensures Values(params, key) == ExpectedValues(search, updates, key) {
      ApplyUpdatesValues(search, updates, key);
    }
  }

  /** An empty string is a value like any other: it is set, not deleted. */
  lemma EmptyStringIsSet(list: seq<Pair>, key: string)
    ensures Values(ApplyUpdates(list, [(key, Some(""))]), key) == [""]
  {
    ApplyUpdatesValues(list, [(key, Some(""))], key);
  }
}
