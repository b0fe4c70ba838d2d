/** Properties of the browser session store across several calls and
    across reopening the same database. */
module StoreLifecycle {
  import opened Outcomes
  import opened Hex
  import opened Session
  import opened Sealing
  import opened WebSessionStore

  /** A session saved without storage errors is what a later `create` with
      the same options and passphrase hydrates: the salt in the meta store
      is reused, so the same key is derived and the record decrypts. */
  lemma ReopenRestoresSavedSession(
    opts: ManagerOptions, pass: Option<string>, db0: Db, salt1: seq<Byte>, salt2: seq<Byte>, salt3: seq<Byte>,
    session: SessionData, iv: Iv)
    requires |salt1| == ResolveOptions(opts, pass).kdfSaltBytes
    requires |salt2| == ResolveOptions(opts, pass).kdfSaltBytes
    requires |salt3| == ResolveOptions(opts, pass).kdfSaltBytes
    requires Create(opts, pass, db0, salt1, {}).mgr.Ok?
    ensures var first := Create(opts, pass, db0, salt1, {});
      var saved := Save(first.mgr.value, first.db, session, salt2, iv, {});
      var reopened := Create(opts, pass, saved.db, salt3, {});
      && saved.logged.None?
      && reopened.mgr.Ok?
      && Load(reopened.mgr.value) == Some(session)
  {
    var c := ResolveOptions(opts, pass);
    var first := Create(opts, pass, db0, salt1, {});
    var m1 := first.mgr.value;
    var key := m1.key.value;
    var saved := Save(m1, first.db, session, salt2, iv, {});
    assert saved.db.meta == first.db.meta;
    var stored := first.db.meta[c.keyId].salt;
    assert key == DeriveKey(PassphraseText(c), stored, c.kdfIterations);
    var salt := GetOrCreateSalt(c, saved.db, salt3, {});
    if stored == [] {
      assert salt3 == [];
    }
    assert salt.result == Ok(stored);
    var k := EnsureCryptoKey(Manager(c, None, None), saved.db, salt3, {});
    assert k.result == Ok(key);
    DecryptEncrypt(session, key, key, iv);
    assert StoredSession(k.db, key) == Ok(Some(session));
  }

  /** Reopening with a different passphrase does not fall back to a
      logged-out store: `create` itself fails, because the stored record
      does not decrypt under the key that passphrase derives. */
  lemma WrongPassphraseFailsCreate(
    opts: ManagerOptions, pass: Option<string>, other: Option<string>, db0: Db,
    salt1: seq<Byte>, salt2: seq<Byte>, salt3: seq<Byte>, session: SessionData, iv: Iv)
    requires |salt1| == ResolveOptions(opts, pass).kdfSaltBytes
    requires |salt2| == ResolveOptions(opts, pass).kdfSaltBytes
    requires |salt3| == ResolveOptions(opts, pass).kdfSaltBytes
    requires Create(opts, pass, db0, salt1, {}).mgr.Ok?
    requires other.Some? && other.value != "" && other != pass
    ensures var first := Create(opts, pass, db0, salt1, {});
      var saved := Save(first.mgr.value, first.db, session, salt2, iv, {});
      Create(opts, other, saved.db, salt3, {}).mgr.Err?
  {
    var c := ResolveOptions(opts, pass);
    var c2 := ResolveOptions(opts, other);
    var first := Create(opts, pass, db0, salt1, {});
    var m1 := first.mgr.value;
    var key := m1.key.value;
    var saved := Save(m1, first.db, session, salt2, iv, {});
    var k := EnsureCryptoKey(Manager(c2, None, None), saved.db, salt3, {});
    assert k.result.Ok?;
    assert k.result.value.passphrase == other.value != PassphraseText(c) == key.passphrase;
    DecryptEncrypt(session, key, k.result.value, iv);
  }

  /** After a clear that reached storage, reopening with the options the
      clearing manager was created with finds no session. */
  lemma ClearForgetsAcrossReopen(
    m: Manager, db: Db, opts: ManagerOptions, pass: Option<string>, newSalt: seq<Byte>)
    requires m.config == ResolveOptions(opts, pass)
    requires |newSalt| == ResolveOptions(opts, pass).kdfSaltBytes
    requires HasPassphrase(ResolveOptions(opts, pass))
    ensures var cleared := Clear(m, db, {});
      var reopened := Create(opts, pass, cleared.db, newSalt, {});
      && Load(cleared.mgr) == None
      && reopened.mgr.Ok?
      && Load(reopened.mgr.value) == None
  {
    var cleared := Clear(m, db, {});
    assert SingletonKey !in cleared.db.sessions;
    CreateFailsExactlyOnUnreadableSession(opts, pass, cleared.db, newSalt, {});
  }

  /** `save` makes `load` return the saved session even when every storage
      request fails, and `clear` makes it return nothing likewise. */
  lemma CacheIsAuthoritative(m: Manager, db: Db, session: SessionData, newSalt: seq<Byte>, iv: Iv, faults: Faults)
    requires |newSalt| == m.config.kdfSaltBytes
    ensures Load(Save(m, db, session, newSalt, iv, faults).mgr) == Some(session)
    ensures Load(Clear(Save(m, db, session, newSalt, iv, faults).mgr, Save(m, db, session, newSalt, iv, faults).db, faults).mgr) == None
  {
  }
}
