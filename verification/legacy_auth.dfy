/** The standalone token helper that predates the strategy classes
    (packages/api/src/auth.ts). */
module LegacyAuth {
  import opened Outcomes
  import opened Hex
  import opened Strategies

  /** `buildAuthParams(username, password)` once its six salt bytes are drawn. */
  function LegacyBuildAuthParams(username: string, password: string, draw: SaltDraw, md5: Md5): (r: Params)
    ensures r.Keys == {"u", "t", "s", "c", "v", "f"}
    ensures CarriesClientIdentity(r)
    ensures r["u"] == username
    ensures |r["s"]| == 2 * DefaultSaltLength && HexDecode(r["s"]) == Some(draw)
    ensures r["t"] == md5(password + r["s"])
  {
    var salt := HexEncode(draw);
    HexRoundTrip(draw);
    map[
      "u" := username,
      "t" := md5(password + salt),
      "s" := salt,
      "c" := ClientName,
      "v" := SubsonicApiVersion,
      "f" := "json"
    ]
  }

  /** Given the same salt bytes, the legacy helper and the token strategy
      send exactly the same parameters. */
  lemma LegacyAgreesWithTokenStrategy(username: string, password: string, draw: SaltDraw, md5: Md5)
    ensures LegacyBuildAuthParams(username, password, draw, md5)
         == BuildAuthParams(AuthWithToken(username, password), draw, md5)
  {
    var legacy := LegacyBuildAuthParams(username, password, draw, md5);
    var token := TokenParams(username, password, draw, md5);
    HexDecodeCanonical(legacy["s"]);
    HexDecodeCanonical(token["s"]);
    assert legacy.Keys == token.Keys;
  }
}
