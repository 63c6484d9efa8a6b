/**
 * What App.js hands to the Facebook SDK and the Graph API, and what it gets
 * back. The SDK and the HTTP calls are foreign: their answers are inputs.
 */
module Facebook {
  import opened Wrappers

  /** The app identity read from the environment. */
  datatype App = App(appId: string, appSecret: string)

  /** The options object both handlers pass to `new Facebook(...)`. */
  datatype ClientConfig = ClientConfig(app: App, redirectUrl: string, graphVersion: string)

  const CallbackBase: string := "http://localhost:2000/facebook/callback/"
  const GraphVersion: string := "v17.0"
  const LoginScopes: seq<string> := ["email"]
  /** Where the callback handler sends the browser once the code is exchanged. */
  const FrontendLogin: string := "http://localhost:3000/login"

  /** The redirect target for an email: the callback route with the email as its last segment. */
  function RedirectUrl(email: string): (url: string)
    ensures |url| == |CallbackBase| + |email|
    ensures url[..|CallbackBase|] == CallbackBase && url[|CallbackBase|..] == email
  {
    CallbackBase + email
  }

  /** An email survives as one path segment of the callback route. */
  predicate Routable(email: string)
  {
    && email != ""
    && forall i :: 0 <= i < |email| ==> email[i] != '/' && email[i] != '?' && email[i] != '#'
  }

  /** The part of a URL the router matches on: everything before the first `?` or `#`. */
  function PathPart(url: string): (path: string)
    ensures path <= url
    ensures forall i :: 0 <= i < |path| ==> path[i] != '?' && path[i] != '#'
    ensures path == url || url[|path|] == '?' || url[|path|] == '#'
  {
    if url == [] || url[0] == '?' || url[0] == '#' then []
    else [url[0]] + PathPart(url[1..])
  }

  /**
   * The `:email` parameter the route `/facebook/callback/:email` reads from a
   * redirect target: the query and fragment are ignored and, the router
   * matching non-strictly, one trailing `/` is accepted; what remains after
   * the callback prefix must be one non-empty segment.
   */
  function CallbackEmail(url: string): (e: Option<string>)
    ensures e.Some? ==> Routable(e.value)
    ensures e.Some? ==>
              var n := |CallbackBase| + |e.value|;
              && n <= |url| && url[..n] == CallbackBase + e.value
              && (n == |url| || url[n] == '/' || url[n] == '?' || url[n] == '#')
  {
    var path := PathPart(url);
    var trimmed := if |path| > 0 && path[|path| - 1] == '/' then path[..|path| - 1] else path;
    if |trimmed| > |CallbackBase| && trimmed[..|CallbackBase|] == CallbackBase
       && Routable(trimmed[|CallbackBase|..])
    then
      assert trimmed == CallbackBase + trimmed[|CallbackBase|..];
      assert url[..|trimmed|] == trimmed;
      Some(trimmed[|CallbackBase|..])
    else None
  }

  /** A path with nothing to strip is its own path part. */
  lemma PathPartOfPlainPath(url: string)
    requires forall i :: 0 <= i < |url| ==> url[i] != '?' && url[i] != '#'
    ensures PathPart(url) == url
  {
  }

  /** A redirect target for a routable email holds no `?` or `#`. */
  lemma RedirectUrlIsPlain(email: string)
    requires Routable(email)
    ensures forall i :: 0 <= i < |RedirectUrl(email)| ==> RedirectUrl(email)[i] != '?' && RedirectUrl(email)[i] != '#'
  {
    var url := RedirectUrl(email);
    forall i | 0 <= i < |url| ensures url[i] != '?' && url[i] != '#' {
      if i >= |CallbackBase| { assert url[i] == email[i - |CallbackBase|]; }
    }
  }

  /** The router reads the same email with one trailing `/` after the target. */
  lemma CallbackEmailIgnoresSlash(email: string)
    requires Routable(email)
    ensures CallbackEmail(RedirectUrl(email) + "/") == Some(email)
  {
    var url := RedirectUrl(email);
    RedirectUrlIsPlain(email);
    PathPartOfPlainPath(url + "/");
    assert (url + "/")[..|url|] == url;
    assert url[|CallbackBase|..] == email;
  }

  /** The router reads the same email with a query after the target. */
  lemma CallbackEmailIgnoresQuery(email: string, query: string)
    requires Routable(email)
    ensures CallbackEmail(RedirectUrl(email) + "?" + query) == Some(email)
  {
    var url := RedirectUrl(email);
    var q := url + "?" + query;
    RedirectUrlIsPlain(email);
    assert q[..|url|] == url;
    PathPartPrefix(q, |url|);
    PathPartOfPlainPath(url);
    RedirectRoundTrip(email);
  }

  /** The path part stops at the first `?` or `#`. */
  lemma {:induction false} PathPartPrefix(url: string, n: nat)
    requires n < |url| && (url[n] == '?' || url[n] == '#')
    requires forall i :: 0 <= i < n ==> url[i] != '?' && url[i] != '#'
    ensures PathPart(url) == url[..n]
  {
    if n > 0 {
      PathPartPrefix(url[1..], n - 1);
      assert url[..n] == [url[0]] + url[1..][..n - 1];
    }
  }

  /** The callback route reads back exactly the email a redirect target was built for, when it is routable. */
  lemma RedirectRoundTrip(email: string)
    ensures CallbackEmail(RedirectUrl(email)) == Some(email) <==> Routable(email)
  {
    var url := RedirectUrl(email);
    if Routable(email) {
      PathPartOfPlainPath(url);
      assert |url| > |CallbackBase|;
    }
  }

  /** The SDK client both handlers build for an email. */
  function ClientFor(app: App, email: string): (c: ClientConfig)
    ensures c.app == app && c.graphVersion == GraphVersion
    ensures c.redirectUrl == RedirectUrl(email)
    ensures Routable(email) ==> CallbackEmail(c.redirectUrl) == Some(email)
  {
    RedirectRoundTrip(email);
    ClientConfig(app, RedirectUrl(email), GraphVersion)
  }

  /** What `GET /facebook/login` asks the SDK's `getLoginUrl` for; the URL it returns is foreign. */
  datatype LoginUrlRequest = LoginUrlRequest(client: ClientConfig, scopes: seq<string>)

  function FacebookLogin(app: App, email: string): (r: LoginUrlRequest)
    ensures r.scopes == LoginScopes
    ensures r.client.app == app && r.client.graphVersion == GraphVersion
    ensures Routable(email) ==> CallbackEmail(r.client.redirectUrl) == Some(email)
  {
    LoginUrlRequest(ClientFor(app, email), LoginScopes)
  }

  /** The SDK's `callback(code)`: rejected with `error.response.data`, or the response's `access_token`. */
  datatype Exchange = ExchangeRejected(data: string) | ExchangeResolved(shortToken: Option<string>)

  /** The `fb_exchange_token` fetch: rejected (network or JSON failure), or the reply's `access_token`. */
  datatype Upgrade = UpgradeRejected | UpgradeResolved(longToken: Option<string>)

  /** The `/me` fetch: rejected, or the reply's `id` and `name` (absent in an error reply). */
  datatype Profile = ProfileRejected | ProfileResolved(id: Option<string>, name: Option<string>)

  /** How the provider answered the three stages of one callback. */
  datatype Answers = Answers(exchange: Exchange, upgrade: Upgrade, profile: Profile)

  /** A request App.js sends to the provider, with the arguments it sends. */
  datatype ProviderCall =
    | ExchangeCall(client: ClientConfig, code: string)
    | UpgradeCall(app: App, shortToken: Option<string>)
    | ProfileCall(token: Option<string>)
}
