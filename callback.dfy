/** The OAuth redirect addresses the server hands to Instagram and Facebook
    (server/lib/instagram.ts): the configured public host when there is one, otherwise the
    address the request came in on, upgraded to https on Replit hosts. */
module Callback {
  import opened Wrappers
  import opened Text
  import opened Matching

  const INSTAGRAM_CALLBACK_PATH: string := "/api/instagram/oauth/callback"
  const FACEBOOK_CALLBACK_PATH: string := "/api/facebook/oauth/callback"
  const DEFAULT_HOST: string := "localhost:5000"
  const HTTPS: string := "https"
  const REPLIT_DEV: string := ".replit.dev"
  const REPLIT_APP: string := ".replit.app"

  /** What the builders read from the incoming request: the `Host` header and the protocol. */
  datatype CallbackRequest = CallbackRequest(hostHeader: Option<string>, protocol: string)

  /** The `Host` header, or the local development address when it is absent or empty. */
  function RequestHost(req: CallbackRequest): (r: string)
    ensures Given(req.hostHeader) ==> r == req.hostHeader.value
    ensures !Given(req.hostHeader) ==> r == DEFAULT_HOST
    ensures r != ""
  {
    if Given(req.hostHeader) then req.hostHeader.value else DEFAULT_HOST
  }

  predicate OnReplit(host: string) {
    Contains(host, REPLIT_DEV) || Contains(host, REPLIT_APP)
  }

  /** The scheme of the address: https for a secure request or a Replit host, else the request's. */
  function Scheme(req: CallbackRequest): (r: string)
    ensures r == HTTPS || r == req.protocol
    ensures OnReplit(RequestHost(req)) ==> r == HTTPS
    ensures !OnReplit(RequestHost(req)) ==> r == req.protocol
  {
    if req.protocol == HTTPS || OnReplit(RequestHost(req)) then HTTPS else req.protocol
  }

  /** The redirect address for `path`: the configured host (`NEXT_PUBLIC_HOST_URL`) when it is set
      and not empty, otherwise scheme, host and path of the request. */
  function CallbackUrl(hostUrl: Option<string>, req: CallbackRequest, path: string): (r: string)
    ensures |r| >= |path| && r[|r| - |path|..] == path
    ensures Given(hostUrl) ==> r[..|r| - |path|] == hostUrl.value
  {
    if Given(hostUrl) then hostUrl.value + path
    else Scheme(req) + "://" + RequestHost(req) + path
  }

  /** `getInstagramCallbackUrl`. */
  function InstagramCallbackUrl(hostUrl: Option<string>, req: CallbackRequest): (r: string)
    ensures |r| >= |INSTAGRAM_CALLBACK_PATH| && r[|r| - |INSTAGRAM_CALLBACK_PATH|..] == INSTAGRAM_CALLBACK_PATH
  {
    CallbackUrl(hostUrl, req, INSTAGRAM_CALLBACK_PATH)
  }

  /** `getFacebookCallbackUrl`. */
  function FacebookCallbackUrl(hostUrl: Option<string>, req: CallbackRequest): (r: string)
    ensures |r| >= |FACEBOOK_CALLBACK_PATH| && r[|r| - |FACEBOOK_CALLBACK_PATH|..] == FACEBOOK_CALLBACK_PATH
  {
    CallbackUrl(hostUrl, req, FACEBOOK_CALLBACK_PATH)
  }

  // ---------------------------------------------------------------- properties

  /** A configured host decides the address whatever the request says. */
  lemma ConfiguredHostIgnoresRequest(hostUrl: Option<string>, req1: CallbackRequest, req2: CallbackRequest, path: string)
    requires Given(hostUrl)
    ensures CallbackUrl(hostUrl, req1, path) == CallbackUrl(hostUrl, req2, path)
  {
  }

  /** Without a configured host, a Replit host is always addressed over https. */
  lemma ReplitHostUsesHttps(hostUrl: Option<string>, req: CallbackRequest, path: string)
    requires !Given(hostUrl) && OnReplit(RequestHost(req))
    ensures CallbackUrl(hostUrl, req, path) == HTTPS + "://" + RequestHost(req) + path
  {
  }

  /** Without a configured host, any other host keeps the protocol of the request. */
  lemma OtherHostKeepsProtocol(hostUrl: Option<string>, req: CallbackRequest, path: string)
    requires !Given(hostUrl) && !OnReplit(RequestHost(req))
    ensures CallbackUrl(hostUrl, req, path) == req.protocol + "://" + RequestHost(req) + path
  {
  }

  /** A plain http request without a `Host` header is sent back to the local development server. */
  lemma DefaultCallbackUrl(hostUrl: Option<string>, req: CallbackRequest, path: string)
    requires !Given(hostUrl) && !Given(req.hostHeader) && req.protocol == "http"
    ensures CallbackUrl(hostUrl, req, path) == "http://" + DEFAULT_HOST + path
  {
    var host := RequestHost(req);
    assert host == DEFAULT_HOST;
    assert forall k :: 0 <= k < |host| ==> host[k] != '.';
    NotContainsWithout(host, REPLIT_DEV);
    NotContainsWithout(host, REPLIT_APP);
  }

  /** The two builders give the same address up to the path. */
  lemma CallbackUrlsDifferOnlyInPath(hostUrl: Option<string>, req: CallbackRequest)
    ensures var ig := InstagramCallbackUrl(hostUrl, req);
      var fb := FacebookCallbackUrl(hostUrl, req);
      ig[..|ig| - |INSTAGRAM_CALLBACK_PATH|] == fb[..|fb| - |FACEBOOK_CALLBACK_PATH|]
  {
    var ig := InstagramCallbackUrl(hostUrl, req);
    var fb := FacebookCallbackUrl(hostUrl, req);
    var base := if Given(hostUrl) then hostUrl.value else Scheme(req) + "://" + RequestHost(req);
    assert ig == base + INSTAGRAM_CALLBACK_PATH;
    assert fb == base + FACEBOOK_CALLBACK_PATH;
    assert ig[..|ig| - |INSTAGRAM_CALLBACK_PATH|] == base;
    assert fb[..|fb| - |FACEBOOK_CALLBACK_PATH|] == base;
  }
}
