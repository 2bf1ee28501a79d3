/** `get_base_url` (app/utils/url.py): force the https scheme on Fly.io. */
module BaseUrl {
  import opened Wrappers
  import opened Strings

  /** `os.getenv("FLY_APP_NAME")` is truthy: set and not empty. */
  predicate OnFly(flyAppName: Option<string>) {
    flyAppName.Some? && flyAppName.value != ""
  }

  /** The request's base URL, with "http:" replaced by "https:" when the
      service runs on Fly.io; any other URL is returned as it is. */
  function GetBaseUrl(baseUrl: string, flyAppName: Option<string>): (r: string)
    ensures !OnFly(flyAppName) || !StartsWith(baseUrl, "http:") ==> r == baseUrl
    ensures OnFly(flyAppName) && StartsWith(baseUrl, "http:") ==>
              StartsWith(r, "https:") && r[6..] == baseUrl[5..]
  {
    if OnFly(flyAppName) && StartsWith(baseUrl, "http:") then "https:" + baseUrl[5..]
    else baseUrl
  }

  /** On Fly.io the result never uses the plain http scheme. */
  lemma {:induction false} OnFlyNeverHttp(baseUrl: string, flyAppName: Option<string>)
    requires OnFly(flyAppName)
    ensures !StartsWith(GetBaseUrl(baseUrl, flyAppName), "http:")
  {
    var r := GetBaseUrl(baseUrl, flyAppName);
    if StartsWith(baseUrl, "http:") {
      assert r[4] == 's';
    }
  }

  /** Applying the rewrite twice is the same as applying it once. */
  lemma {:induction false} GetBaseUrlIdempotent(baseUrl: string, flyAppName: Option<string>)
    ensures GetBaseUrl(GetBaseUrl(baseUrl, flyAppName), flyAppName) == GetBaseUrl(baseUrl, flyAppName)
  {
    if OnFly(flyAppName) {
      OnFlyNeverHttp(baseUrl, flyAppName);
    }
  }
}
