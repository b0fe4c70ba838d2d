/** The authentication strategies: a closed set of variants, each producing
    the query parameters that authenticate one Subsonic API request
    (packages/api/src/auth/strategy and packages/api/src/auth/auth.ts). */
module Strategies {
  import opened Outcomes
  import opened Hex
  import opened Session

  /** The client name sent as `c`. Its value lives in a constants module
      that is not part of this model, so it is left unspecified. */
  const ClientName: string

  /** The Subsonic API version sent as `v`; unspecified for the same reason. */
  const SubsonicApiVersion: string

  /** Request parameters: a string-to-string record. */
  type Params = map<string, string>

  /** MD5 as a function from text to its digest (RFC 1321), uninterpreted. */
  type Md5 = string -> string

  /** A live strategy. Each variant holds its credentials and nothing else:
      no salt, token or cached parameters. */
  datatype AuthStrategy =
    | BasicAuth(user: string, password: string)
    | TokenAuth(user: string, password: string)
    | ApiKeyAuth(user: string, apiKey: string)
  {
    /** The strategy type recorded when this strategy's session is saved. */
    function Kind(): StrategyType {
      match this
      case BasicAuth(_, _) => Basic
      case TokenAuth(_, _) => Token
      case ApiKeyAuth(_, _) => ApiKey
    }
  }

  /** The client-identity fields every strategy sends, with their values. */
  predicate CarriesClientIdentity(r: Params) {
    && "c" in r && r["c"] == ClientName
    && "v" in r && r["v"] == SubsonicApiVersion
    && "f" in r && r["f"] == "json"
  }

  /** `baseParams`: the client name, the API version and the JSON format. */
  function BaseParams(): (r: Params)
    ensures r.Keys == {"c", "v", "f"}
    ensures CarriesClientIdentity(r)
  {
    map["c" := ClientName, "v" := SubsonicApiVersion, "f" := "json"]
  }

  /** `BasicAuthStrategy.buildAuthParams`: the password itself goes on the wire. */
  function BasicParams(user: string, password: string): (r: Params)
    ensures r.Keys == BaseParams().Keys + {"u", "p"}
    ensures CarriesClientIdentity(r)
    ensures r["u"] == user && r["p"] == password
  {
    BaseParams()["u" := user]["p" := password]
  }

  /** `TokenAuthStrategy.buildAuthParams` once `draw` has been drawn for the
      salt: the salt goes out as `s`, the MD5 of password and salt as `t`,
      and the password itself is never sent. */
  function TokenParams(user: string, password: string, draw: SaltDraw, md5: Md5): (r: Params)
    ensures r.Keys == BaseParams().Keys + {"u", "t", "s"}
    ensures CarriesClientIdentity(r)
    ensures r["u"] == user
    ensures |r["s"]| == 2 * DefaultSaltLength && IsLowerHex(r["s"])
    ensures HexDecode(r["s"]) == Some(draw)
    ensures r["t"] == md5(password + r["s"])
    ensures "p" !in r
  {
    var salt := HexEncode(draw);
    HexRoundTrip(draw);
    BaseParams()["u" := user]["t" := md5(password + salt)]["s" := salt]
  }

  /** `ApiKeyAuthStrategy.buildAuthParams`: the key is passed through verbatim. */
  function ApiKeyParams(user: string, apiKey: string): (r: Params)
    ensures r.Keys == BaseParams().Keys + {"u", "apiKey"}
    ensures CarriesClientIdentity(r)
    ensures r["u"] == user && r["apiKey"] == apiKey
    ensures "p" !in r && "t" !in r && "s" !in r
  {
    BaseParams()["u" := user]["apiKey" := apiKey]
  }

  /** `buildAuthParams()` on any strategy. `draw` stands for the bytes
      `crypto.getRandomValues` produces during this call; only the token
      variant consumes them. */
  function BuildAuthParams(s: AuthStrategy, draw: SaltDraw, md5: Md5): (r: Params)
    ensures CarriesClientIdentity(r)
    ensures "u" in r && r["u"] == s.user
  {
    match s
    case BasicAuth(user, password) => BasicParams(user, password)
    case TokenAuth(user, password) => TokenParams(user, password, draw, md5)
    case ApiKeyAuth(user, apiKey) => ApiKeyParams(user, apiKey)
  }

  /** The credential field present in the parameters tells the variants
      apart: `p` only for basic, `t` and `s` only for token, `apiKey` only
      for API-key strategies. */
  lemma ParamsIdentifyVariant(s: AuthStrategy, draw: SaltDraw, md5: Md5)
    ensures "p" in BuildAuthParams(s, draw, md5) <==> s.BasicAuth?
    ensures "t" in BuildAuthParams(s, draw, md5) <==> s.TokenAuth?
    ensures "s" in BuildAuthParams(s, draw, md5) <==> s.TokenAuth?
    ensures "apiKey" in BuildAuthParams(s, draw, md5) <==> s.ApiKeyAuth?
  {
  }

  /** Basic and API-key parameters depend only on the credentials, so two
      calls on the same strategy return equal records. */
  lemma DeterministicUnlessToken(s: AuthStrategy, d1: SaltDraw, d2: SaltDraw, md5: Md5)
    requires !s.TokenAuth?
    ensures BuildAuthParams(s, d1, md5) == BuildAuthParams(s, d2, md5)
  {
  }

  /** Nothing is cached between token calls: each call's salt is the
      encoding of that call's own draw, so two calls whose draws differ send
      different salts. */
  lemma TokenSaltIsFreshPerCall(user: string, password: string, d1: SaltDraw, d2: SaltDraw, md5: Md5)
    ensures var r1, r2 := TokenParams(user, password, d1, md5), TokenParams(user, password, d2, md5);
      r1["s"] == r2["s"] <==> d1 == d2
  {
    HexEncodeInjective(d1, d2);
  }

  /** `Auth.basic(user, password)`. */
  function AuthBasic(user: string, password: string): (r: AuthStrategy)
    ensures r.Kind() == Basic && r.user == user && r.password == password
  {
    BasicAuth(user, password)
  }

  /** `Auth.withToken(user, password)`: only the credentials are stored; the
      salt and token are made later, by each `buildAuthParams` call. */
  function AuthWithToken(user: string, password: string): (r: AuthStrategy)
    ensures r.Kind() == Token && r.user == user && r.password == password
  {
    TokenAuth(user, password)
  }

  /** `Auth.withApiKey(user, apiKey)`. */
  function AuthWithApiKey(user: string, apiKey: string): (r: AuthStrategy)
    ensures r.Kind() == ApiKey && r.user == user && r.apiKey == apiKey
  {
    ApiKeyAuth(user, apiKey)
  }
}
