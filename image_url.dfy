/** `getImageUrl`: where the dashboard loads a stored image from. */
module ImageUrl {
  import opened Wrappers
  import opened JsText
  import BaseApi

  /** The placeholder shown when there is no image. */
  const DefaultImage := "/assets/image4.png"

  predicate IsAbsolute(path: string) {
    StartsWith(path, "http://") || StartsWith(path, "https://")
  }

  /** The placeholder for a missing or empty path; an absolute URL as it is; any other path
      under the image host, joined with a '/'. The result is never empty. */
  function GetImageUrl(path: Option<string>): (r: string)
    ensures r != ""
    ensures path.None? || path.value == "" ==> r == DefaultImage
    ensures path.Some? && IsAbsolute(path.value) ==> r == path.value
    ensures path.Some? && path.value != "" && !IsAbsolute(path.value) ==>
      StartsWith(r, BaseApi.ImageUrl + "/") && r[|BaseApi.ImageUrl| + 1..] == path.value
  {
    if path.None? || !Truthy(path.value) then DefaultImage
    else if IsAbsolute(path.value) then path.value
    else BaseApi.ImageUrl + "/" + path.value
  }

  /** Resolving a resolved non-empty path changes nothing: the result is already absolute. */
  lemma ResolveIsIdempotent(path: string)
    requires path != ""
    ensures GetImageUrl(Some(GetImageUrl(Some(path)))) == GetImageUrl(Some(path))
  {
    if !IsAbsolute(path) {
      var r := GetImageUrl(Some(path));
      assert r[..8] == "https://";
      assert StartsWith(r, "https://");
    }
  }

  /** A relative path that already starts with '/' is joined with a second '/': the result
      holds "//" right after the host. */
  lemma LeadingSlashIsDoubled(path: string)
    requires path != "" && path[0] == '/'
    ensures GetImageUrl(Some(path))[|BaseApi.ImageUrl|..|BaseApi.ImageUrl| + 2] == "//"
  {
    assert !IsAbsolute(path) by {
      assert path[0] != "http://"[0];
    }
    var r := GetImageUrl(Some(path));
    assert r[|BaseApi.ImageUrl|] == '/';
    assert r[|BaseApi.ImageUrl| + 1] == path[0];
  }
}
