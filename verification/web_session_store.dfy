/** The browser session manager (apps/web/src/lib/session-manager.ts) as a
    state machine over an in-memory manager and a database with two object
    stores: the session store, whose only record lives under "singleton",
    and the meta store holding the key-derivation salt. Each storage request
    may fail; which ones fail in a given call is an input. */
module WebSessionStore {
  import opened Outcomes
  import opened Hex
  import opened Session
  import opened Sealing

  /** The one key under which a session record is read, written or deleted. */
  const SingletonKey: string := "singleton"

  const DefaultDbName: string := "subsonic-auth"
  const DefaultStoreName: string := "session"
  const DefaultMetaStoreName: string := "meta"
  const DefaultKeyId: string := "kdf_salt"
  const DefaultKdfIterations: int := 100_000
  const DefaultKdfSaltBytes: nat := 16

  /** The message `create` throws without a passphrase. */
  const PassphraseRequired: string := "VITE_SESSION_PASSPHRASE is required"

  /** The error a failed IndexedDB request or transaction reports. The
      browser's own text is not modelled; this fixed message stands for it
      and differs from the passphrase and decryption errors. */
  const StorageFailure: string := "IndexedDB request failed"

  /** `ManagerOptions`: every field may be left out. */
  datatype ManagerOptions = ManagerOptions(
    dbName: Option<string>, storeName: Option<string>, metaStoreName: Option<string>,
    keyId: Option<string>, kdfIterations: Option<int>, kdfSaltBytes: Option<nat>)

  /** The options with defaults filled in, plus the passphrase taken from
      the build environment (`VITE_SESSION_PASSPHRASE`, possibly undefined). */
  datatype Config = Config(
    dbName: string, storeName: string, metaStoreName: string, keyId: string,
    kdfIterations: int, kdfSaltBytes: nat, passphrase: Option<string>)

  /** A session-store record: `{ id, payload }`. */
  datatype SessionRow = SessionRow(payload: Option<EncryptedPayload>)

  /** A meta-store record: `{ id, salt }`; an empty salt reads as missing. */
  datatype MetaRow = MetaRow(salt: seq<Byte>)

  /** The database: the session object store and the meta object store,
      each a map from record id to record. */
  datatype Db = Db(sessions: map<string, SessionRow>, meta: map<string, MetaRow>)

  /** The manager's own fields: its options, the in-memory session and the
      memoised key. */
  datatype Manager = Manager(config: Config, cache: Option<SessionData>, key: Option<CryptoKey>)

  /** The storage requests the manager makes. */
  datatype StorageOp = MetaGet | MetaPut | SessionGet | SessionPut | SessionDelete

  /** The requests that fail during one call. No public operation issues the
      same request twice, so one set describes a whole call. */
  type Faults = set<StorageOp>

  /** The outcome of an internal step: the database and manager afterwards,
      and the value or the error thrown. */
  datatype Step<T> = Step(db: Db, mgr: Manager, result: Result<T>)

  /** The outcome of a storage-only step, which has no manager state: the
      database afterwards and the value or the error thrown. */
  datatype Fetched<T> = Fetched(db: Db, result: Result<T>)

  /** The outcome of `save` or `clear`: they never reject, and a failure is
      only written to the console. */
  datatype Effect = Effect(db: Db, mgr: Manager, logged: Option<string>)

  /** The outcome of `create`: the database (a new salt may have been
      written even when creation fails) and the manager or the error. */
  datatype Created = Created(db: Db, mgr: Result<Manager>)

  function OrDefault<T>(given: Option<T>, default: T): T {
    match given
    case Some(v) => v
    case None => default
  }

  /** `{ ...defaults, ...opts }`: a supplied option wins, a missing one takes
      its default. */
  function ResolveOptions(opts: ManagerOptions, envPassphrase: Option<string>): (c: Config)
    ensures c.dbName == OrDefault(opts.dbName, "subsonic-auth")
    ensures c.storeName == OrDefault(opts.storeName, "session")
    ensures c.metaStoreName == OrDefault(opts.metaStoreName, "meta")
    ensures c.keyId == OrDefault(opts.keyId, "kdf_salt")
    ensures c.kdfIterations == OrDefault(opts.kdfIterations, 100_000)
    ensures c.kdfSaltBytes == OrDefault(opts.kdfSaltBytes, 16)
    ensures c.passphrase == envPassphrase
  {
    Config(
      OrDefault(opts.dbName, DefaultDbName),
      OrDefault(opts.storeName, DefaultStoreName),
      OrDefault(opts.metaStoreName, DefaultMetaStoreName),
      OrDefault(opts.keyId, DefaultKeyId),
      OrDefault(opts.kdfIterations, DefaultKdfIterations),
      OrDefault(opts.kdfSaltBytes, DefaultKdfSaltBytes),
      envPassphrase)
  }

  /** `!mgr.opts.passphrase`: undefined and the empty string both count as
      missing. */
  predicate HasPassphrase(c: Config) {
    c.passphrase.Some? && c.passphrase.value != ""
  }

  /** The passphrase as `TextEncoder` sees it. */
  function PassphraseText(c: Config): string {
    OrDefault(c.passphrase, "")
  }

  /** The salt `getOrCreateSalt` would reuse: a stored, non-empty one. */
  function StoredSalt(db: Db, keyId: string): Option<seq<Byte>> {
    if keyId in db.meta && db.meta[keyId].salt != [] then Some(db.meta[keyId].salt) else None
  }

  /** A memoised key is the one derived from the passphrase and the salt in
      the meta store. */
  predicate KeyMatchesMeta(m: Manager, db: Db) {
    m.key.Some? ==>
      && m.config.keyId in db.meta
      && m.key.value == DeriveKey(PassphraseText(m.config), db.meta[m.config.keyId].salt, m.config.kdfIterations)
  }

  /** At most one session record exists, under "singleton". */
  predicate SingleSession(db: Db) {
    db.sessions.Keys <= {SingletonKey}
  }

  /** `getOrCreateSalt()`: reuses the stored salt, or writes `newSalt` (the
      `kdfSaltBytes` random bytes drawn for it) and returns it. Either way a
      successful call leaves the returned salt in the meta store; the
      session store is never touched. */
  function GetOrCreateSalt(c: Config, db: Db, newSalt: seq<Byte>, faults: Faults): (r: Fetched<seq<Byte>>)
    requires |newSalt| == c.kdfSaltBytes
    ensures r.db.sessions == db.sessions
    ensures MetaGet in faults ==> r.result.Err? && r.db == db
    ensures MetaGet !in faults && StoredSalt(db, c.keyId).Some? ==>
      r.db == db && r.result == Ok(StoredSalt(db, c.keyId).value)
    ensures MetaGet !in faults && StoredSalt(db, c.keyId).None? ==>
      if MetaPut in faults then r.result.Err? && r.db == db
      else r.result == Ok(newSalt) && r.db == db.(meta := db.meta[c.keyId := MetaRow(newSalt)])
    ensures r.result.Ok? ==> c.keyId in r.db.meta && r.db.meta[c.keyId].salt == r.result.value
  {
    if MetaGet in faults then Fetched(db, Err(StorageFailure))
    else if StoredSalt(db, c.keyId).Some? then Fetched(db, Ok(db.meta[c.keyId].salt))
    else if MetaPut in faults then Fetched(db, Err(StorageFailure))
    else Fetched(db.(meta := db.meta[c.keyId := MetaRow(newSalt)]), Ok(newSalt))
  }

  /** Asking for the salt again after it was obtained returns the same salt
      and writes nothing, whatever bytes the second call would draw. */
  lemma SaltIsStable(c: Config, db: Db, salt1: seq<Byte>, salt2: seq<Byte>, f1: Faults, f2: Faults)
    requires |salt1| == c.kdfSaltBytes && |salt2| == c.kdfSaltBytes
    requires GetOrCreateSalt(c, db, salt1, f1).result.Ok?
    requires MetaGet !in f2 && MetaPut !in f2
    ensures var first := GetOrCreateSalt(c, db, salt1, f1);
      GetOrCreateSalt(c, first.db, salt2, f2).result == first.result
      && GetOrCreateSalt(c, first.db, salt2, f2).db == first.db
  {
    var first := GetOrCreateSalt(c, db, salt1, f1);
    if first.result.value == [] {
      assert salt2 == [] == first.result.value;
      assert first.db.meta[c.keyId := MetaRow(salt2)] == first.db.meta;
    }
  }

  /** `ensureCryptoKey()`: returns the memoised key without any storage
      request; otherwise derives one from the passphrase and the salt and
      memoises it. */
  function EnsureCryptoKey(m: Manager, db: Db, newSalt: seq<Byte>, faults: Faults): (r: Step<CryptoKey>)
    requires |newSalt| == m.config.kdfSaltBytes
    ensures m.key.Some? ==> r == Step(db, m, Ok(m.key.value))
    ensures r.result.Ok? ==> r.mgr == m.(key := Some(r.result.value))
    ensures r.result.Err? ==> r.mgr == m
    ensures r.db.sessions == db.sessions
    ensures KeyMatchesMeta(m, db) ==> KeyMatchesMeta(r.mgr, r.db)
    ensures m.key.None? ==>
      var s := GetOrCreateSalt(m.config, db, newSalt, faults);
      && r.db == s.db
      && (s.result.Err? ==> r.result == Err(s.result.message))
      && (s.result.Ok? ==> r.result == Ok(DeriveKey(PassphraseText(m.config), s.result.value, m.config.kdfIterations)))
  {
    if m.key.Some? then Step(db, m, Ok(m.key.value))
    else
      var s := GetOrCreateSalt(m.config, db, newSalt, faults);
      match s.result
      case Err(e) => Step(s.db, m, Err(e))
      case Ok(salt) =>
        var key := DeriveKey(PassphraseText(m.config), salt, m.config.kdfIterations);
        Step(s.db, m.(key := Some(key)), Ok(key))
  }

  /** The session hydration finds in `db` under `key`: nothing when there is
      no record or no payload, else the decryption (which may fail). */
  function StoredSession(db: Db, key: CryptoKey): Result<Option<SessionData>> {
    if SingletonKey !in db.sessions || db.sessions[SingletonKey].payload.None? then Ok(None)
    else
      var s :- DecryptJson(db.sessions[SingletonKey].payload.value, key);
      Ok(Some(s))
  }

  /** `readSession()`: reads the singleton record; without a record or
      payload there is no session, otherwise the payload is decrypted under
      the manager's key, and a decryption error is thrown, not turned into
      "no session". */
  function ReadSession(m: Manager, db: Db, newSalt: seq<Byte>, faults: Faults): (r: Step<Option<SessionData>>)
    requires |newSalt| == m.config.kdfSaltBytes
    ensures SessionGet in faults ==> r.result.Err?
    ensures SessionGet !in faults && (SingletonKey !in db.sessions || db.sessions[SingletonKey].payload.None?) ==>
      r == Step(db, m, Ok(None))
    ensures SessionGet !in faults && m.key.Some? ==> r.result == StoredSession(db, m.key.value)
    ensures r.db.sessions == db.sessions
    ensures r.mgr.cache == m.cache && r.mgr.config == m.config
    ensures m.key.Some? ==> r.mgr == m && r.db == db
    ensures KeyMatchesMeta(m, db) ==> KeyMatchesMeta(r.mgr, r.db)
  {
    if SessionGet in faults then Step(db, m, Err(StorageFailure))
    else if SingletonKey !in db.sessions || db.sessions[SingletonKey].payload.None? then Step(db, m, Ok(None))
    else
      var k := EnsureCryptoKey(m, db, newSalt, faults);
      match k.result
      case Err(e) => Step(k.db, k.mgr, Err(e))
      case Ok(key) =>
        match DecryptJson(db.sessions[SingletonKey].payload.value, key)
        case Err(e) => Step(k.db, k.mgr, Err(e))
        case Ok(s) => Step(k.db, k.mgr, Ok(Some(s)))
  }

  /** `IndexDBSessionManager.create(opts)`: refuses a missing passphrase,
      derives the key, then hydrates the cache from the stored record. Any
      storage or decryption error makes `create` fail; it never yields a
      manager with an empty cache in place of an unreadable session. */
  function Create(opts: ManagerOptions, envPassphrase: Option<string>, db: Db, newSalt: seq<Byte>, faults: Faults)
    : (r: Created)
    requires |newSalt| == ResolveOptions(opts, envPassphrase).kdfSaltBytes
    ensures !HasPassphrase(ResolveOptions(opts, envPassphrase)) ==> r == Created(db, Err(PassphraseRequired))
    ensures r.mgr == Err(PassphraseRequired) <==> !HasPassphrase(ResolveOptions(opts, envPassphrase))
    ensures r.db.sessions == db.sessions
    ensures StoredSalt(db, ResolveOptions(opts, envPassphrase).keyId).Some? ==> r.db == db
    ensures HasPassphrase(ResolveOptions(opts, envPassphrase)) && (MetaGet in faults || SessionGet in faults) ==> r.mgr.Err?
    ensures r.mgr.Ok? ==>
      && r.mgr.value.config == ResolveOptions(opts, envPassphrase)
      && r.mgr.value.key.Some?
      && KeyMatchesMeta(r.mgr.value, r.db)
      && StoredSession(r.db, r.mgr.value.key.value) == Ok(r.mgr.value.cache)
  {
    var c := ResolveOptions(opts, envPassphrase);
    if !HasPassphrase(c) then Created(db, Err(PassphraseRequired))
    else
      var k := EnsureCryptoKey(Manager(c, None, None), db, newSalt, faults);
      match k.result
      case Err(e) => Created(k.db, Err(e))
      case Ok(key) =>
        var read := ReadSession(k.mgr, k.db, newSalt, faults);
        match read.result
        case Err(e) => Created(read.db, Err(e))
        case Ok(session) => Created(read.db, Ok(read.mgr.(cache := session)))
  }

  /** When storage answers, `create` fails exactly when a stored session
      does not decrypt under the key derived from the passphrase and the
      stored salt: a wrong passphrase is an error, not a logged-out start. */
  lemma CreateFailsExactlyOnUnreadableSession(
    opts: ManagerOptions, envPassphrase: Option<string>, db: Db, newSalt: seq<Byte>, faults: Faults)
    requires |newSalt| == ResolveOptions(opts, envPassphrase).kdfSaltBytes
    requires HasPassphrase(ResolveOptions(opts, envPassphrase))
    requires MetaGet !in faults && MetaPut !in faults && SessionGet !in faults
    ensures var c := ResolveOptions(opts, envPassphrase);
      var r := Create(opts, envPassphrase, db, newSalt, faults);
      && c.keyId in r.db.meta
      && (r.mgr.Err? <==>
          StoredSession(r.db, DeriveKey(PassphraseText(c), r.db.meta[c.keyId].salt, c.kdfIterations)).Err?)
  {
    var c := ResolveOptions(opts, envPassphrase);
    var m0 := Manager(c, None, None);
    var salt := GetOrCreateSalt(c, db, newSalt, faults);
    assert salt.result.Ok?;
    var k := EnsureCryptoKey(m0, db, newSalt, faults);
    assert k.result.Ok? && k.db == salt.db;
    var read := ReadSession(k.mgr, k.db, newSalt, faults);
    assert read.result == StoredSession(k.db, k.result.value) && read.db == k.db;
  }

  /** `load()`: the in-memory session; storage is not consulted. */
  function Load(m: Manager): Option<SessionData> {
    m.cache
  }

  /** `save(session)`: the cache takes the session first; then the session
      is sealed under the (memoised) key with nonce `iv` and written under
      "singleton". A failure on the way is logged and swallowed, and the
      cache keeps the new session regardless. */
  function Save(m: Manager, db: Db, session: SessionData, newSalt: seq<Byte>, iv: Iv, faults: Faults): (r: Effect)
    requires |newSalt| == m.config.kdfSaltBytes
    ensures Load(r.mgr) == Some(session)
    ensures r.mgr.config == m.config
    ensures m.key.Some? ==> r.mgr.key == m.key && r.db.meta == db.meta
    ensures r.logged.Some? ==> r.db.sessions == db.sessions
    ensures r.logged.None? ==>
      && r.mgr.key.Some?
      && r.db.sessions == db.sessions[SingletonKey := SessionRow(Some(EncryptJson(session, r.mgr.key.value, iv)))]
    ensures m.key.Some? && SessionPut !in faults ==> r.logged.None?
    ensures SessionPut in faults ==> r.logged.Some? && r.db.sessions == db.sessions
    ensures SingleSession(db) ==> SingleSession(r.db)
    ensures KeyMatchesMeta(m, db) ==> KeyMatchesMeta(r.mgr, r.db)
  {
    var cached := m.(cache := Some(session));
    var k := EnsureCryptoKey(cached, db, newSalt, faults);
    match k.result
    case Err(e) => Effect(k.db, k.mgr, Some("Failed to save session: " + e))
    case Ok(key) =>
      var payload := EncryptJson(session, key, iv);
      if SessionPut in faults then Effect(k.db, k.mgr, Some("Failed to save session: " + StorageFailure))
      else Effect(k.db.(sessions := k.db.sessions[SingletonKey := SessionRow(Some(payload))]), k.mgr, None)
  }

  /** `clear()`: the cache is emptied first; the singleton record is then
      deleted, and a failed delete is logged and swallowed. */
  function Clear(m: Manager, db: Db, faults: Faults): (r: Effect)
    ensures Load(r.mgr) == None
    ensures r.mgr.config == m.config && r.mgr.key == m.key
    ensures SessionDelete in faults ==> r.db == db && r.logged.Some?
    ensures SessionDelete !in faults ==> r.logged.None? && SingletonKey !in r.db.sessions
    ensures r.db.meta == db.meta
    ensures SingleSession(db) ==> SingleSession(r.db)
    ensures SessionDelete !in faults ==> r.db.sessions == db.sessions - {SingletonKey}
  {
    var cleared := m.(cache := None);
    if SessionDelete in faults then Effect(db, cleared, Some("Failed to clear session: " + StorageFailure))
    else Effect(db.(sessions := db.sessions - {SingletonKey}), cleared, None)
  }
}
