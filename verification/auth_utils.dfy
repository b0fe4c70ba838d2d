/** Login and session-restore glue between a session manager, the strategy
    registry and the API client
    (packages/lib/src/context/auth-context/auth-utils.ts). */
module AuthUtils {
  import opened Outcomes
  import opened Hex
  import opened Session
  import opened Strategies
  import opened Restore
  import opened Client

  /** `data?.data?.baseUrl` is truthy: present and not empty. */
  predicate HasBaseUrl(s: SessionData) {
    "baseUrl" in s.data && s.data["baseUrl"] != ""
  }

  /** `createApiFromSession(sessionManager)` given what `load()` returned:
      no client without a session or without a base URL; otherwise a client
      on that URL whose strategy is the restored one. A restoring error
      propagates. */
  function CreateApiFromSession<M>(loaded: Option<SessionData>, manager: M, fromSession: FromSession<M>)
    : (r: Result<Option<ApiClient>>)
    ensures loaded.None? ==> r == Ok(None)
    ensures loaded.Some? && !HasBaseUrl(loaded.value) ==> r == Ok(None)
    ensures loaded.Some? && HasBaseUrl(loaded.value) ==>
      match RestoreAuthStrategy(loaded.value, Some(manager), fromSession)
      case Err(e) => r == Err(e)
      case Ok(st) => r == Ok(Some(NewApiClient(loaded.value.data["baseUrl"], st)))
  {
    match loaded
    case None => Ok(None)
    case Some(session) =>
      if !HasBaseUrl(session) then Ok(None)
      else
        var st :- RestoreAuthStrategy(session, Some(manager), fromSession);
        Ok(Some(NewApiClient(session.data["baseUrl"], st)))
  }

  /** What a login did: the record it saved and the client it returned. */
  datatype Login = Login(saved: SessionData, client: Result<Option<ApiClient>>)

  /** `performLogin`: saves the strategy's tag, the user and one call's
      parameters with `baseUrl` set to `url` (overriding any parameter of
      that name), then restores a client from the same manager. `save(rec)`
      is the manager once its `save` has run (its cache is set before
      anything is awaited), `load` is the manager's `load()`, and `draw` is
      the salt of the single `buildAuthParams` call. */
  function PerformLogin<M>(
    save: SessionData -> M, load: M -> Option<SessionData>, fromSession: FromSession<M>,
    url: string, user: string, strategy: AuthStrategy, draw: SaltDraw, md5: Md5)
    : (out: Login)
    ensures out.saved.tag == strategy.Kind().Tag() && out.saved.user == user
    ensures "baseUrl" in out.saved.data && out.saved.data["baseUrl"] == url
    ensures forall k :: k in out.saved.data && k != "baseUrl" ==>
      k in BuildAuthParams(strategy, draw, md5) && out.saved.data[k] == BuildAuthParams(strategy, draw, md5)[k]
    ensures out.saved.data.Keys == BuildAuthParams(strategy, draw, md5).Keys + {"baseUrl"}
    ensures out.client == CreateApiFromSession(load(save(out.saved)), save(out.saved), fromSession)
  {
    var params := BuildAuthParams(strategy, draw, md5);
    var saved := SessionData(user, strategy.Kind().Tag(), params["baseUrl" := url]);
    var manager := save(saved);
    Login(saved, CreateApiFromSession(load(manager), manager, fromSession))
  }

  /** With a manager whose `load()` returns the last save and a `fromSession`
      that accepts a record given the manager that saved it, login yields a client exactly when the
      URL is not empty, on that URL less one trailing slash, and the token
      and salt saved are the ones that login's parameters carried. */
  lemma LoginYieldsClientIffUrl<M>(
    save: SessionData -> M, load: M -> Option<SessionData>, fromSession: FromSession<M>,
    url: string, user: string, strategy: AuthStrategy, draw: SaltDraw, md5: Md5)
    requires forall s :: load(save(s)) == Some(s)
    requires forall t, s :: fromSession(t, s, Some(save(s))).Ok?
    ensures var out := PerformLogin(save, load, fromSession, url, user, strategy, draw, md5);
      && out.client.Ok?
      && (out.client.value.Some? <==> url != "")
      && (out.client.value.Some? ==> out.client.value.value.baseUrl == StripTrailingSlash(url))
      && (strategy.TokenAuth? ==> HexDecode(out.saved.data["s"]) == Some(draw))
  {
    var out := PerformLogin(save, load, fromSession, url, user, strategy, draw, md5);
    TagRoundTrip(strategy.Kind(), strategy.Kind().Tag());
    assert load(save(out.saved)) == Some(out.saved);
    var st := fromSession(strategy.Kind(), out.saved, Some(save(out.saved)));
    assert st.Ok?;
  }
}
