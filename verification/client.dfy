/** The request-capable client built from a base URL and a strategy
    (packages/api/src/api-client.ts). */
module Client {
  import opened Outcomes
  import opened Hex
  import opened Strategies

  datatype ApiClient = ApiClient(baseUrl: string, strategy: AuthStrategy)

  /** The parts of one request URL before WHATWG resolution and query
      encoding: the client's base, the path relative to it, and the query
      parameters. */
  datatype ApiRequest = ApiRequest(base: string, relative: string, query: Params)

  predicate EndsWithSlash(s: string) {
    |s| > 0 && s[|s| - 1] == '/'
  }

  /** `url.replace(/\/$/, "")`: removes one trailing slash, if there is one. */
  function StripTrailingSlash(url: string): (r: string)
    ensures url == r || url == r + "/"
    ensures url == r <==> !EndsWithSlash(url)
  {
    if EndsWithSlash(url) then url[..|url| - 1] else url
  }

  /** Only one slash goes: "x//" keeps one, so stripping is not idempotent. */
  lemma StripRemovesOnlyOneSlash()
    ensures StripTrailingSlash("x//") == "x/"
    ensures StripTrailingSlash(StripTrailingSlash("x//")) != StripTrailingSlash("x//")
  {
    assert "x//"[..2] == "x/";
    assert "x/"[..1] == "x";
  }

  /** The `ApiClient` constructor: the base URL loses one trailing slash and
      the strategy is kept as given. */
  function NewApiClient(url: string, strategy: AuthStrategy): (c: ApiClient)
    ensures c.strategy == strategy
    ensures c.baseUrl == url || c.baseUrl + "/" == url
    ensures c.baseUrl == url <==> !EndsWithSlash(url)
  {
    ApiClient(StripTrailingSlash(url), strategy)
  }

  /** `getApiUrl(path)`: every request builds fresh parameters with one
      `buildAuthParams` call, whose salt bytes are `draw`, and addresses
      "rest/" + path relative to the base. */
  function GetApiUrl(c: ApiClient, path: string, draw: SaltDraw, md5: Md5): (req: ApiRequest)
    ensures req.base == c.baseUrl
    ensures req.query == BuildAuthParams(c.strategy, draw, md5)
    ensures |req.relative| == |path| + 5 && req.relative[..5] == "rest/" && req.relative[5..] == path
    ensures CarriesClientIdentity(req.query) && "u" in req.query && req.query["u"] == c.strategy.user
    ensures c.strategy.TokenAuth? ==>
      && "s" in req.query && "t" in req.query
      && HexDecode(req.query["s"]) == Some(draw)
      && req.query["t"] == md5(c.strategy.password + req.query["s"])
  {
    ApiRequest(c.baseUrl, "rest/" + path, BuildAuthParams(c.strategy, draw, md5))
  }

  /** Two requests from one token client whose salt draws differ carry
      different salts: nothing is reused between requests. */
  lemma TokenRequestsDoNotReuseSalt(c: ApiClient, p1: string, p2: string, d1: SaltDraw, d2: SaltDraw, md5: Md5)
    requires c.strategy.TokenAuth? && d1 != d2
    ensures "s" in GetApiUrl(c, p1, d1, md5).query && "s" in GetApiUrl(c, p2, d2, md5).query
    ensures GetApiUrl(c, p1, d1, md5).query["s"] != GetApiUrl(c, p2, d2, md5).query["s"]
  {
    HexEncodeInjective(d1, d2);
  }

  /* Resolution of the request path against the base, on the path
     component of the base URL. */

  /** Index of the last '/' in `s`, if any. */
  function LastSlash(s: string): (r: Option<nat>)
    ensures r.Some? ==> r.value < |s| && s[r.value] == '/'
    ensures r.Some? ==> forall i :: r.value < i < |s| ==> s[i] != '/'
    ensures r.None? ==> forall i :: 0 <= i < |s| ==> s[i] != '/'
  {
    if |s| == 0 then None
    else if s[|s| - 1] == '/' then Some(|s| - 1)
    else LastSlash(s[..|s| - 1])
  }

  /** Merging a relative path with a base path (section 5.2.3 of RFC 3986):
      the base's last segment, everything after its last '/', is replaced
      by the reference; an empty base path acts as "/". */
  function MergePaths(basePath: string, reference: string): string {
    if basePath == "" then "/" + reference
    else match LastSlash(basePath)
      case None => reference
      case Some(i) => basePath[..i + 1] + reference
  }

  /** The path a request reaches as written: the constructor strips the
      trailing slash, then `new URL("rest/" + path, baseUrl)` merges. */
  function RequestPathAsWritten(basePath: string, path: string): string {
    MergePaths(StripTrailingSlash(basePath), "rest/" + path)
  }

  /** A server mounted below the root loses its mount point: for a base path
      "/music/" the request goes to "/rest/ping", not "/music/rest/ping". */
  lemma AsWrittenDropsMountPoint()
    ensures RequestPathAsWritten("/music/", "ping") == "/rest/ping"
    ensures RequestPath("/music/", "ping") == "/music/rest/ping"
  {
    assert StripTrailingSlash("/music/") == "/music";
    assert LastSlash("/music") == Some(0) by {
      assert "/music"[..5] == "/musi";
      assert "/musi"[..4] == "/mus";
      assert "/mus"[..3] == "/mu";
      assert "/mu"[..2] == "/m";
      assert "/m"[..1] == "/";
    }
    assert "/music"[..1] == "/";
  }

  /** The base path with exactly the slash the merge needs at its end. */
  function WithTrailingSlash(basePath: string): (r: string)
    ensures EndsWithSlash(r)
    ensures r == basePath || r == basePath + "/"
  {
    if EndsWithSlash(basePath) then basePath else basePath + "/"
  }

  /** The evidently intended request path: resolution against a base that
      ends in '/' keeps every segment of the base. */
  function RequestPath(basePath: string, path: string): (r: string)
    ensures r == WithTrailingSlash(basePath) + "rest/" + path
  {
    var base := WithTrailingSlash(basePath);
    assert LastSlash(base) == Some(|base| - 1);
    assert base[..|base|] == base;
    MergePaths(base, "rest/" + path)
  }

  /** For a server at the root the two agree, which is why the loss only
      shows for servers mounted below the root. */
  lemma RootMountsAgree(basePath: string, path: string)
    requires basePath == "" || basePath == "/"
    ensures RequestPathAsWritten(basePath, path) == RequestPath(basePath, path)
  {
    if basePath == "/" {
      assert StripTrailingSlash(basePath) == "";
    }
  }
}
