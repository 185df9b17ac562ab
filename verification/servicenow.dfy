/** The `Servicenow` client class: connection settings derived from the host's `config`. */
module Servicenow {
  import opened Results
  import opened Text
  import opened Exceptions

  /** The host's `config` mapping; a missing key reads as `None`. */
  datatype Config = Config(
    username: Option<string>,
    password: Option<string>,
    serverUrl: Option<string>,
    verifySsl: Option<bool>)

  /** A constructed client: credentials and TLS flag pass through, `url` is the normalised base. */
  datatype Client = Client(
    username: Option<string>,
    password: Option<string>,
    url: string,
    verifySsl: Option<bool>)

  const ApiSuffix := "/api/now"
  const HttpsScheme := "https://"
  const HttpScheme := "http://"

  /** The case-sensitive scheme test of the constructor. */
  predicate HasScheme(u: string) {
    HttpsScheme <= u || HttpScheme <= u
  }

  /** The base URL the constructor stores for `server_url`: slashes stripped from both ends,
      `https://` put in front unless an http or https scheme is already there, `/api/now` appended. */
  function BaseUrl(serverUrl: string): (r: string)
    ensures var u := Strip(serverUrl, '/');
            && (HasScheme(u) ==> r == u + ApiSuffix)
            && (!HasScheme(u) ==> r == HttpsScheme + u + ApiSuffix)
    ensures HasScheme(r)
    ensures |r| >= |ApiSuffix| && r[|r| - |ApiSuffix|..] == ApiSuffix
  {
    var u := Strip(serverUrl, '/');
    if !(HttpsScheme <= u) && !(HttpScheme <= u) then HttpsScheme + u + ApiSuffix else u + ApiSuffix
  }

  /** `Servicenow(config)`: reading `server_url` as `None` makes `.strip` raise an AttributeError. */
  function NewClient(config: Config): (r: Result<Client, Failure>)
    ensures r.Ok? <==> config.serverUrl.Some?
    ensures r.Ok? ==> r.value == Client(config.username, config.password,
                                        BaseUrl(config.serverUrl.value), config.verifySsl)
    ensures r.Err? ==> r.error == Failure(AttributeError, "'NoneType' object has no attribute 'strip'")
  {
    match config.serverUrl
    case None => Err(Failure(AttributeError, "'NoneType' object has no attribute 'strip'"))
    case Some(s) => Ok(Client(config.username, config.password, BaseUrl(s), config.verifySsl))
  }

  /** A trailing slash on `server_url` makes no difference, and neither does a leading one. */
  lemma {:induction false} SlashesIgnored(serverUrl: string)
    ensures BaseUrl(serverUrl + "/") == BaseUrl(serverUrl)
    ensures BaseUrl("/" + serverUrl) == BaseUrl(serverUrl)
  {
    StripIgnoresTrailing(serverUrl, '/');
    StripIgnoresLeading(serverUrl, '/');
  }

  /** For a non-empty host the base URL has no doubled slash before `/api/now`. */
  lemma NoSlashBeforeSuffix(serverUrl: string)
    requires Strip(serverUrl, '/') != ""
    ensures var r := BaseUrl(serverUrl); r[|r| - |ApiSuffix| - 1] != '/'
  {
    var u := Strip(serverUrl, '/');
    var r := BaseUrl(serverUrl);
    if HasScheme(u) {
      assert r == u + ApiSuffix;
    } else {
      assert r == HttpsScheme + u + ApiSuffix;
    }
    assert r[|r| - |ApiSuffix| - 1] == u[|u| - 1];
  }

  /** A `server_url` without a scheme gets exactly one: `https://`, followed by the host itself. */
  lemma OneDefaultScheme(serverUrl: string)
    requires !HasScheme(Strip(serverUrl, '/'))
    ensures var r := BaseUrl(serverUrl);
            && HttpsScheme <= r
            && !HasScheme(r[|HttpsScheme|..])
  {
    var u := Strip(serverUrl, '/');
    var r := BaseUrl(serverUrl);
    assert r == HttpsScheme + u + ApiSuffix;
    assert r[|HttpsScheme|..] == u + ApiSuffix;
    NoSchemeBeforeSuffix(u);
  }

  /** A stripped host without a scheme does not acquire one when `/api/now` is appended. */
  lemma NoSchemeBeforeSuffix(u: string)
    requires !HasScheme(u)
    requires u == [] || u[|u| - 1] != '/'
    ensures !HasScheme(u + ApiSuffix)
  {
    var w := u + ApiSuffix;
    // w differs from each scheme at some position: inside u, at the '/' of the suffix, or just after it
    if |u| < 6 {
      assert w[|u|] != HttpsScheme[|u|];
    } else if |u| == 6 {
      assert w[7] != HttpsScheme[7];
    } else if |u| == 7 {
      assert w[6] != HttpsScheme[6];
    } else {
      assert w[..|HttpsScheme|] == u[..|HttpsScheme|];
    }
    if |u| < 5 {
      assert w[|u|] != HttpScheme[|u|];
    } else if |u| == 5 {
      assert w[6] != HttpScheme[6];
    } else if |u| == 6 {
      assert w[5] != HttpScheme[5];
    } else {
      assert w[..|HttpScheme|] == u[..|HttpScheme|];
    }
  }

  /** Writing the default scheme explicitly changes nothing, for a host with no slash at either end. */
  lemma ExplicitHttpsIsDefault(host: string)
    requires host != [] && host[0] != '/' && host[|host| - 1] != '/'
    requires !HasScheme(host)
    ensures BaseUrl(HttpsScheme + host) == BaseUrl(host)
  {
    StripUnchanged(host, '/');
    StripUnchanged(HttpsScheme + host, '/');
    assert HttpsScheme <= HttpsScheme + host;
  }

  /** The scheme test is case-sensitive: an upper-case scheme gets a second one in front. */
  lemma UpperCaseSchemeDoubled(host: string)
    requires host != [] && host[|host| - 1] != '/'
    ensures BaseUrl("HTTPS://" + host) == HttpsScheme + "HTTPS://" + host + ApiSuffix
  {
    var u := "HTTPS://" + host;
    assert u[0] == 'H' && u[|u| - 1] == host[|host| - 1];
    StripUnchanged(u, '/');
    assert !HasScheme(u) by {
      assert u[0] != HttpsScheme[0] && u[0] != HttpScheme[0];
    }
  }

  /** A bare host name, with or without a trailing slash, becomes `https://<host>/api/now`. */
  lemma BareHost(host: string)
    requires host != [] && host[0] != '/' && host[|host| - 1] != '/'
    requires !HasScheme(host)
    ensures BaseUrl(host) == HttpsScheme + host + ApiSuffix
    ensures BaseUrl(host + "/") == HttpsScheme + host + ApiSuffix
  {
    StripUnchanged(host, '/');
    SlashesIgnored(host);
  }

  /** A URL that names its scheme keeps it; a trailing slash is removed before `/api/now` is added. */
  lemma SchemedUrl(url: string)
    requires HasScheme(url) && url[|url| - 1] != '/'
    ensures BaseUrl(url) == url + ApiSuffix
    ensures BaseUrl(url + "/") == url + ApiSuffix
  {
    StripUnchanged(url, '/');
    SlashesIgnored(url);
  }
}
