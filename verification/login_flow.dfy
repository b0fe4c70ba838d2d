/** Logging in through the browser session store: `performLogin` with the
    store as its session manager. */
module LoginFlow {
  import opened Outcomes
  import opened Hex
  import opened Session
  import opened Sealing
  import opened Strategies
  import opened Restore
  import opened Client
  import opened AuthUtils
  import opened WebSessionStore

  /** The browser store once `save(rec)` has run, whatever the storage
      does: the manager `performLogin` goes on to restore from. */
  function SaveInto(m: Manager, db: Db, newSalt: seq<Byte>, iv: Iv, faults: Faults): SessionData -> Manager
    requires |newSalt| == m.config.kdfSaltBytes
  {
    rec => Save(m, db, rec, newSalt, iv, faults).mgr
  }

  /** The browser store reads back the last save even when persisting it
      fails, and the manager handed to `fromSession` is the one whose cache
      already holds the saved record. So a login through the store yields a
      client exactly when the URL is not empty, given a `fromSession` that
      accepts a record whenever the manager it is given loads that record,
      even when the store started with an empty cache. */
  lemma LoginThroughBrowserStore(
    m: Manager, db: Db, newSalt: seq<Byte>, iv: Iv, faults: Faults, fromSession: FromSession<Manager>,
    url: string, user: string, strategy: AuthStrategy, draw: SaltDraw, md5: Md5)
    requires |newSalt| == m.config.kdfSaltBytes
    requires forall t, s, m' :: Load(m') == Some(s) ==> fromSession(t, s, Some(m')).Ok?
    ensures var out := PerformLogin(SaveInto(m, db, newSalt, iv, faults), Load, fromSession, url, user, strategy, draw, md5);
      && out.client.Ok?
      && (out.client.value.Some? <==> url != "")
  {
    var save := SaveInto(m, db, newSalt, iv, faults);
    forall s: SessionData
      ensures Load(save(s)) == Some(s)
    {
      assert Load(Save(m, db, s, newSalt, iv, faults).mgr) == Some(s);
    }
    LoginYieldsClientIffUrl(save, Load, fromSession, url, user, strategy, draw, md5);
  }
}
