/** The session record shared between the API package and the session
    managers that persist it (packages/api/src/auth/session-manager.ts). */
module Session {
  import opened Outcomes

  /** The three credential schemes a session can be restored into. */
  datatype StrategyType = Token | Basic | ApiKey {
    /** The wire tag persisted in a session record. */
    function Tag(): string {
      match this
      case Token => "token"
      case Basic => "basic"
      case ApiKey => "apikey"
    }
  }

  /** A persisted session. The strategy tag is kept as the raw string it is
      read back as: records come out of `JSON.parse` unchecked, so nothing
      guarantees the tag is one of the three. */
  datatype SessionData = SessionData(user: string, tag: string, data: map<string, string>)

  /** Reads a wire tag back into a strategy type, or nothing for any other string. */
  function ParseTag(tag: string): (r: Option<StrategyType>)
    ensures r.Some? <==> tag in {"token", "basic", "apikey"}
  {
    if tag == "token" then Some(Token)
    else if tag == "basic" then Some(Basic)
    else if tag == "apikey" then Some(ApiKey)
    else None
  }

  /** The tags are exactly "token", "basic" and "apikey", one per variant,
      and parsing undoes tagging in both directions. */
  lemma TagRoundTrip(t: StrategyType, tag: string)
    ensures ParseTag(t.Tag()) == Some(t)
    ensures ParseTag(tag) == Some(t) ==> t.Tag() == tag
    ensures t.Tag() in {"token", "basic", "apikey"}
  {
  }

  /** A session is well tagged when its tag names one of the three variants. */
  predicate WellTagged(s: SessionData) {
    ParseTag(s.tag).Some?
  }
}
