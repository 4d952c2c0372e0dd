/** The URL under which the backend serves a stored media path
    (`getMediaFile`). The base URL is configuration held outside this model,
    so it is a parameter. */
module Utils {
  import opened Records
  import opened Strings

  /** The base URL, a slash, then the stored path, with no normalisation. */
  function GetMediaFile(baseUrl: string, path: string): (url: string)
    ensures StartsWith(url, baseUrl + "/")
    ensures |url| == |baseUrl| + 1 + |path|
    ensures url[|baseUrl| + 1..] == path
  {
    baseUrl + "/" + path
  }

  /** The stored path a URL was built from, when it lies under `baseUrl`. */
  function MediaPath(baseUrl: string, url: string): (path: Option<string>)
    ensures path.Some? <==> StartsWith(url, baseUrl + "/")
    ensures path.Some? ==> GetMediaFile(baseUrl, path.value) == url
  {
    if StartsWith(url, baseUrl + "/") then Some(url[|baseUrl| + 1..]) else None
  }

  /** Every media URL gives back the path it was built from. */
  lemma MediaPathRoundTrip(baseUrl: string, path: string)
    ensures MediaPath(baseUrl, GetMediaFile(baseUrl, path)) == Some(path)
  {
  }

  /** Distinct paths give distinct URLs. */
  lemma GetMediaFileInjective(baseUrl: string, p: string, q: string)
    requires GetMediaFile(baseUrl, p) == GetMediaFile(baseUrl, q)
    ensures p == q
  {
    MediaPathRoundTrip(baseUrl, p);
    MediaPathRoundTrip(baseUrl, q);
  }

  /** A stored path that begins with a slash yields a double slash right after
      the base URL: no slash is collapsed. */
  lemma LeadingSlashDoubles(baseUrl: string, path: string)
    requires StartsWith(path, "/")
    ensures OccursAt(GetMediaFile(baseUrl, path), "//", |baseUrl|)
  {
    var url := GetMediaFile(baseUrl, path);
    assert url[|baseUrl|] == '/';
    assert url[|baseUrl| + 1] == path[0];
  }
}
