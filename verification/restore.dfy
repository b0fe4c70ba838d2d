/** Rebuilding a live strategy from a persisted session
    (packages/lib/src/context/auth-context/restore-auth-strategy.ts). */
module Restore {
  import opened Outcomes
  import opened Session
  import opened Strategies

  /** A variant's `fromSession` constructor, given the variant it belongs to,
      the session and the optional session manager. No shown strategy class
      implements it, so the model takes it as a parameter: it may build a
      strategy or throw. */
  type FromSession<!M> = (StrategyType, SessionData, Option<M>) -> Result<AuthStrategy>

  /** `strategies`: one entry per strategy type, keyed by its tag. */
  const Registry: map<string, StrategyType> :=
    map["token" := Token, "basic" := Basic, "apikey" := ApiKey]

  /** The registry is total over the strategy types and maps each tag to
      its own variant. */
  lemma RegistryIsTotal(t: StrategyType)
    ensures t.Tag() in Registry && Registry[t.Tag()] == t
    ensures Registry.Keys == {"token", "basic", "apikey"}
  {
  }

  /** `getStrategy(type)`: the registered entry for a known tag, and
      "Unknown strategy type: <tag>" for every other string. */
  function GetStrategy(tag: string): (r: Result<StrategyType>)
    ensures r.Ok? <==> ParseTag(tag).Some?
    ensures r.Ok? ==> r.value.Tag() == tag
    ensures r.Err? ==> r.message == "Unknown strategy type: " + tag
  {
    if tag in Registry then Ok(Registry[tag]) else Err("Unknown strategy type: " + tag)
  }

  /** `restoreAuthStrategy(session, sessionManager)`: dispatches on the
      session's tag alone and hands the session and manager, untouched, to
      that variant's `fromSession`. An unknown tag fails with no fallback. */
  function RestoreAuthStrategy<M>(session: SessionData, manager: Option<M>, fromSession: FromSession<M>)
    : (r: Result<AuthStrategy>)
    ensures match ParseTag(session.tag)
      case None => r == Err("Unknown strategy type: " + session.tag)
      case Some(t) => r == fromSession(t, session, manager)
    ensures !WellTagged(session) ==> r.Err?
  {
    var variant :- GetStrategy(session.tag);
    fromSession(variant, session, manager)
  }
}
