/** The backend's URLs. */
module Endpoints {
  import opened Wrappers
  import opened Decimal

  const ApiBaseUrl := "https://your-django-api.com"

  const Register := ApiBaseUrl + "/api/user/register/"
  const Login := ApiBaseUrl + "/api/user/login/"
  const TokenRefresh := ApiBaseUrl + "/api/token/refresh/"

  const FloodManagement := ApiBaseUrl + "/api/floodmanagement/"
  const HelpDetailsPath := FloodManagement + "helpdetails/"
  const CrowdsourceDetailsPath := FloodManagement + "crowdsourcedetails/"

  /** `${path}${id}/`. */
  function DetailsUrl(path: string, id: int): string {
    path + IntToString(id) + "/"
  }

  /** The id a details URL under `path` names, if it is one. */
  function DetailsId(path: string, url: string): Option<int> {
    if |url| >= |path| + 1 && url[..|path|] == path && url[|url| - 1] == '/'
    then ParseInt(url[|path|..|url| - 1])
    else None
  }

  lemma DetailsRoundTrip(path: string, id: int)
    ensures DetailsId(path, DetailsUrl(path, id)) == Some(id)
    ensures var url := DetailsUrl(path, id); url[|path|..|url| - 1] == IntToString(id)
  {
    var url := DetailsUrl(path, id);
    assert url[..|path|] == path;
    assert url[|path|..|url| - 1] == IntToString(id);
    IntToStringRoundTrip(id);
  }

  /** `API_ENDPOINTS.flood.helpDetails(id)`. */
  function HelpDetails(id: SafeInteger): (url: string)
    ensures |url| > |HelpDetailsPath| && url[..|HelpDetailsPath|] == HelpDetailsPath
    ensures url[|url| - 1] == '/'
    ensures DetailsId(HelpDetailsPath, url) == Some(id as int)
    ensures Canonical(url[|HelpDetailsPath|..|url| - 1])
  {
    DetailsRoundTrip(HelpDetailsPath, id);
    DetailsUrl(HelpDetailsPath, id)
  }

  /** `API_ENDPOINTS.flood.crowdsourceDetails(id)`. */
  function CrowdsourceDetails(id: SafeInteger): (url: string)
    ensures |url| > |CrowdsourceDetailsPath| && url[..|CrowdsourceDetailsPath|] == CrowdsourceDetailsPath
    ensures url[|url| - 1] == '/'
    ensures DetailsId(CrowdsourceDetailsPath, url) == Some(id as int)
    ensures Canonical(url[|CrowdsourceDetailsPath|..|url| - 1])
  {
    DetailsRoundTrip(CrowdsourceDetailsPath, id);
    DetailsUrl(CrowdsourceDetailsPath, id)
  }

  /** Different ids give different URLs. */
  lemma HelpDetailsInjective(a: SafeInteger, b: SafeInteger)
    ensures HelpDetails(a) == HelpDetails(b) ==> a == b
  {
    // HelpDetails' own contract recovers the id from the URL.
  }

  /** No help-request URL is a crowdsource-report URL. */
  lemma DetailsUrlsDisjoint(a: SafeInteger, b: SafeInteger)
    ensures HelpDetails(a) != CrowdsourceDetails(b)
  {
    var k := |FloodManagement|;
    assert HelpDetails(a)[k] == HelpDetailsPath[k] == 'h';
    assert CrowdsourceDetails(b)[k] == CrowdsourceDetailsPath[k] == 'c';
  }
}
