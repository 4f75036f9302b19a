/** Turning a stored image path into a URL the browser can load. */
module ImageUrl {
  import opened Wrappers
  import opened Text

  const API_URL := "http://localhost:3001"

  /** getImageUrl: null, undefined and "" give ""; an absolute http(s) URL is
      kept; any other path is resolved against the API origin, adding a
      slash only when the path lacks one. */
  function GetImageUrl(path: Option<string>): (r: string)
    ensures path.None? || path == Some("") ==> r == ""
    ensures path.Some? && StartsWith(path.value, "http") ==> r == path.value
    ensures path.Some? && path.value != "" && !StartsWith(path.value, "http") ==>
      r == API_URL + (if StartsWith(path.value, "/") then "" else "/") + path.value
  {
    if path.None? || path.value == "" then ""
    else if StartsWith(path.value, "http") then path.value
    else API_URL + (if StartsWith(path.value, "/") then "" else "/") + path.value
  }

  /** Any non-empty path survives at the end of the URL. */
  lemma ImageUrlEndsWithPath(path: string)
    requires path != ""
    ensures EndsWith(GetImageUrl(Some(path)), path)
  {
    var r := GetImageUrl(Some(path));
    assert r[|r| - |path|..] == path;
  }

  /** A relative path always lands under the API origin. */
  lemma RelativePathUnderApi(path: string)
    requires path != "" && !StartsWith(path, "http")
    ensures StartsWith(GetImageUrl(Some(path)), API_URL + "/")
  {
    var r := GetImageUrl(Some(path));
    if StartsWith(path, "/") {
      assert r == API_URL + path;
      assert r[..|API_URL| + 1] == API_URL + [path[0]];
    } else {
      assert r == API_URL + "/" + path;
      assert r[..|API_URL| + 1] == API_URL + "/";
    }
  }

  /** Resolving a resolved URL changes nothing. */
  lemma ImageUrlIdempotent(path: Option<string>)
    ensures GetImageUrl(Some(GetImageUrl(path))) == GetImageUrl(path)
  {
    var r := GetImageUrl(path);
    if r != "" && !(path.Some? && StartsWith(path.value, "http")) {
      assert r[..4] == "http";
    }
  }
}
