/**
 * URL helpers (src/utils/route.ts): stripping one slash from each end of a
 * path, and joining the public URI, the base name and an API path.
 */
module Route {
  import opened Wrappers
  import Text

  /** No slash at either end. */
  predicate Bare(s: string) {
    s == [] || (s[0] != '/' && s[|s| - 1] != '/')
  }

  /**
   * `removeLeadingAndTrailingSlashes`; `None` is a `null` or `undefined`
   * input, which counts as the empty string.  One slash at most goes from
   * each end.
   */
  function RemoveLeadingAndTrailingSlashes(input: Option<string>): (r: string)
    ensures input.None? ==> r == ""
    ensures input.Some? ==>
      var s := input.value;
      && (Text.StartsWith(s, "/") ==> s == "/" + r || s == "/" + r + "/")
      && (!Text.StartsWith(s, "/") ==> s == r || s == r + "/")
  {
    var s := if input.None? then "" else input.value;
    var t := if Text.StartsWith(s, "/") then s[1..] else s;
    if Text.EndsWith(t, "/") then t[..|t| - 1] else t
  }

  /** A bare path comes back as it was, whatever single slashes surround it. */
  lemma StripRoundTrip(r: string, leading: bool, trailing: bool)
    requires Bare(r)
    ensures
      var s := (if leading then "/" else "") + r + (if trailing then "/" else "");
      RemoveLeadingAndTrailingSlashes(Some(s)) == r
  {
    var tr := if trailing then "/" else "";
    var s := (if leading then "/" else "") + r + tr;
    if leading || r != [] {
      var t := if leading then s[1..] else s;
      if leading {
        assert s[1..] == r + tr;
      } else {
        assert s[0] == r[0];
      }
      assert t == r + tr;
      if trailing {
        assert t[..|t| - 1] == r;
      } else {
        assert t == r;
      }
    }
  }

  /** Stripping a bare path changes nothing. */
  lemma StripOfBare(s: string)
    requires Bare(s)
    ensures RemoveLeadingAndTrailingSlashes(Some(s)) == s
  {
    StripRoundTrip(s, false, false);
    assert "" + s + "" == s;
  }

  /**
   * `generatePublicUrl`: the public URI, then `/basename` when one is set,
   * then `/` and the stripped API path, then the query string (`?` and the
   * encoded parameters, or nothing; the encoding itself is not modelled).
   */
  function GeneratePublicUrl(publicUri: string, basename: Option<string>, apiPath: string,
    encodedQuery: Option<string>): (url: string)
    ensures Text.StartsWith(url, publicUri)
  {
    var queryStr := if encodedQuery.Some? then "?" + encodedQuery.value else "";
    var base := if basename.Some? && basename.value != "" then publicUri + "/" + basename.value else publicUri;
    assert (base + "/" + RemoveLeadingAndTrailingSlashes(Some(apiPath)) + queryStr)[..|publicUri|] == publicUri;
    base + "/" + RemoveLeadingAndTrailingSlashes(Some(apiPath)) + queryStr
  }

  /**
   * With a base name that has been stripped, exactly one slash separates
   * each part, however the API path was written.
   */
  lemma PublicUrlShape(publicUri: string, basename: string, path: string, leading: bool, trailing: bool, encodedQuery: Option<string>)
    requires Bare(path) && Bare(basename)
    ensures
      var apiPath := (if leading then "/" else "") + path + (if trailing then "/" else "");
      var queryStr := if encodedQuery.Some? then "?" + encodedQuery.value else "";
      && GeneratePublicUrl(publicUri, Some(basename), apiPath, encodedQuery) ==
           publicUri + (if basename == "" then "" else "/" + basename) + "/" + path + queryStr
      && GeneratePublicUrl(publicUri, None, apiPath, encodedQuery) == publicUri + "/" + path + queryStr
  {
    StripRoundTrip(path, leading, trailing);
  }
}
