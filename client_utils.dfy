/** `getImageUrl`: turning a stored image path into a URL the browser can load. */
module ClientUtils {
  import opened Wrappers
  import Text

  /** The API origin when the environment does not set one. */
  const DefaultBaseUrl: string := "http://localhost:8000"

  /** `NEXT_PUBLIC_API_URL || 'http://localhost:8000'`. */
  function BaseUrl(env: Option<string>): (base: string)
    ensures Given(env) ==> base == env.value
    ensures !Given(env) ==> base == DefaultBaseUrl
    ensures base != ""
  {
    if Given(env) then env.value else DefaultBaseUrl
  }

  /** `replace(/\/api\/?$/, '')`: drop one trailing `/api` or `/api/`. */
  function StripApi(base: string): (r: string)
    ensures |r| <= |base| && r == base[..|r|]
    ensures Text.EndsWith(base, "/api/") ==> r == base[..|base| - 5]
    ensures !Text.EndsWith(base, "/api/") && Text.EndsWith(base, "/api") ==> r == base[..|base| - 4]
    ensures !Text.EndsWith(base, "/api/") && !Text.EndsWith(base, "/api") ==> r == base
  {
    if Text.EndsWith(base, "/api/") then base[..|base| - 5]
    else if Text.EndsWith(base, "/api") then base[..|base| - 4]
    else base
  }

  /** Whatever precedes the `/api` suffix is exactly what is kept. */
  lemma StripApiRoundTrip(b: string)
    ensures StripApi(b + "/api") == b
    ensures StripApi(b + "/api/") == b
  {
    assert (b + "/api/")[|b + "/api/"| - 5..] == "/api/";
    assert (b + "/api")[|b + "/api"| - 4..] == "/api";
    assert !Text.EndsWith(b + "/api", "/api/") by {
      var s := b + "/api";
      if |s| >= 5 {
        assert s[|s| - 5..][4] == s[|s| - 1] == 'i';
      }
    }
  }

  /** The path with one leading '/'. */
  function CleanPath(p: string): (r: string)
    ensures Text.StartsWith(r, "/")
    ensures Text.StartsWith(p, "/") ==> r == p
    ensures !Text.StartsWith(p, "/") ==> r == "/" + p
  {
    if Text.StartsWith(p, "/") then p else "/" + p
  }

  /** An absolute or blob URL, which is returned as it is. */
  predicate IsAbsolute(p: string)
  {
    Text.StartsWith(p, "http") || Text.StartsWith(p, "blob:")
  }

  /**
   * `getImageUrl(path)` with `env` the configured API URL: empty for a
   * missing path, the path itself when absolute, otherwise the origin
   * (the API URL without its `/api` suffix) followed by the path.
   */
  function ImageUrl(path: Option<string>, env: Option<string>): (url: string)
    ensures !Given(path) ==> url == ""
    ensures Given(path) && IsAbsolute(path.value) ==> url == path.value
    ensures Given(path) && !IsAbsolute(path.value) ==> url == StripApi(BaseUrl(env)) + CleanPath(path.value)
  {
    if !Given(path) then ""
    else if IsAbsolute(path.value) then path.value
    else StripApi(BaseUrl(env)) + CleanPath(path.value)
  }

  /** A relative path and the same path with a leading '/' load the same URL. */
  lemma LeadingSlashIrrelevant(p: string, env: Option<string>)
    requires p != "" && !Text.StartsWith(p, "/") && !IsAbsolute(p)
    ensures ImageUrl(Some("/" + p), env) == ImageUrl(Some(p), env)
  {
    assert ("/" + p)[..1] == "/";
    assert !IsAbsolute("/" + p) by {
      assert ("/" + p)[0] == '/';
    }
  }

  /**
   * With an `http` origin, the URL it produces is absolute, so passing it
   * through again returns it unchanged.
   */
  lemma ImageUrlIdempotent(path: Option<string>, env: Option<string>)
    requires Text.StartsWith(StripApi(BaseUrl(env)), "http")
    ensures ImageUrl(Some(ImageUrl(path, env)), env) == ImageUrl(path, env)
  {
    var url := ImageUrl(path, env);
    if Given(path) && !IsAbsolute(path.value) {
      var base := StripApi(BaseUrl(env));
      assert url[..4] == base[..4];
    }
  }
}
