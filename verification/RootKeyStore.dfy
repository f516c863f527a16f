/**
 The encrypted root-key store, over symbolic cryptography.

 A key derived from a password and a fresh salt decrypts exactly what it encrypted, and stored key parameters
 give their key back exactly to the password that made it. Database transactions commit as a whole.
 */
module RootKeyStore {
  import opened Wrappers

  type Bytes = string

  const ENCRYPTION_KEY_ID: Bytes := "enckey"
  const DEFAULT_ROOT_KEY_ID: Bytes := "0"

  datatype Key = Key(password: Bytes, salt: nat)

  /** A value of the root-key bucket. */
  datatype Entry =
    | Params(key: Key)              // the marshalled parameters of a key, never the key itself
    | Sealed(key: Key, secret: nat) // a root key, encrypted

  datatype Error =
    | StoreLocked | AlreadyUnlocked | PasswordRequired | InvalidPassword | DecryptFailed | UnmarshalFailed
    | ContextRootKeyId | MissingRootKeyId | KeyValueForbidden | RootKeyIdNotFound | EncKeyNotFound | DeletionForbidden

  function Derive(e: Entry, password: Bytes): Result<Key, Error> {
    match e
    case Params(k) => if k.password == password then Ok(k) else Err(InvalidPassword)
    case Sealed(_, _) => Err(UnmarshalFailed)
  }

  function Decrypt(k: Key, e: Entry): Result<nat, Error> {
    match e
    case Sealed(k', secret) => if k == k' then Ok(secret) else Err(DecryptFailed)
    case Params(_) => Err(DecryptFailed)
  }

  /** The bucket, the key in memory, and how much randomness has been drawn. */
  datatype Store = Store(bucket: map<Bytes, Entry>, encKey: Option<Key>, draws: nat)

  datatype Op =
    | CreateUnlock(password: Option<Bytes>)
    | Close
    | Reopen // a new service over the same database
    | RootKey(contextId: Option<Bytes>) // the id travels in the request context
    | Get(id: Bytes)
    | ChangePassword(oldPw: Option<Bytes>, newPw: Option<Bytes>)
    | GenerateNewRootKey
    | DeleteMacaroonId(id: Bytes)

  datatype Reply = Done | Secret(secret: nat) | Deleted(found: bool)

  // What each call does

  function Apply(s: Store, op: Op): (Store, Result<Reply, Error>) {
    match op
    case CreateUnlock(password) =>
      if s.encKey.Some? then (s, Err(AlreadyUnlocked))
      else if password.None? then (s, Err(PasswordRequired))
      else if ENCRYPTION_KEY_ID in s.bucket then
        (match Derive(s.bucket[ENCRYPTION_KEY_ID], password.value)
         case Ok(k) => (s.(encKey := Some(k)), Ok(Done))
         case Err(e) => (s, Err(e)))
      else
        var k := Key(password.value, s.draws);
        (Store(s.bucket[ENCRYPTION_KEY_ID := Params(k)], Some(k), s.draws + 1), Ok(Done))
    case Close => (s.(encKey := None), Ok(Done))
    case Reopen => (s.(encKey := None), Ok(Done))
    case RootKey(id) =>
      if s.encKey.None? then (s, Err(StoreLocked))
      else if id.None? then (s, Err(ContextRootKeyId))
      else if id.value == "" then (s, Err(MissingRootKeyId))
      else if id.value == ENCRYPTION_KEY_ID then (s, Err(KeyValueForbidden))
      else if id.value in s.bucket then
        (s, Reveal(Decrypt(s.encKey.value, s.bucket[id.value])))
      else
        (Generated(s, id.value, s.encKey.value), Ok(Secret(s.draws)))
    case Get(id) =>
      if s.encKey.None? then (s, Err(StoreLocked))
      else if id !in s.bucket then (s, Err(RootKeyIdNotFound))
      else (s, Reveal(Decrypt(s.encKey.value, s.bucket[id])))
    case ChangePassword(oldPw, newPw) =>
      if s.encKey.None? then (s, Err(StoreLocked))
      else if oldPw.None? || newPw.None? then (s, Err(PasswordRequired))
      else if ENCRYPTION_KEY_ID !in s.bucket || DEFAULT_ROOT_KEY_ID !in s.bucket then (s, Err(EncKeyNotFound))
      else
        (match Derive(s.bucket[ENCRYPTION_KEY_ID], oldPw.value)
         case Err(e) => (s, Err(e))
         case Ok(k) =>
           match Decrypt(k, s.bucket[DEFAULT_ROOT_KEY_ID])
           case Err(e) => (s, Err(e))
           case Ok(secret) =>
             var k' := Key(newPw.value, s.draws);
             (Store(s.bucket[DEFAULT_ROOT_KEY_ID := Sealed(k', secret)][ENCRYPTION_KEY_ID := Params(k')],
                    Some(k'), s.draws + 1), Ok(Done)))
    case GenerateNewRootKey =>
      if s.encKey.None? then (s, Err(StoreLocked))
      else (Generated(s, DEFAULT_ROOT_KEY_ID, s.encKey.value), Ok(Done))
    case DeleteMacaroonId(id) =>
      if s.encKey.None? then (s, Err(StoreLocked))
      else if id == "" then (s, Err(MissingRootKeyId))
      else if id == ENCRYPTION_KEY_ID || id == DEFAULT_ROOT_KEY_ID then (s, Err(DeletionForbidden))
      else (s.(bucket := s.bucket - {id}), Ok(Deleted(id in s.bucket)))
  }

  function Reveal(r: Result<nat, Error>): Result<Reply, Error> {
    match r case Ok(secret) => Ok(Secret(secret)) case Err(e) => Err(e)
  }

  /** A new random root key, sealed under `k` and stored. */
  function Generated(s: Store, id: Bytes, k: Key): Store {
    s.(bucket := s.bucket[id := Sealed(k, s.draws)], draws := s.draws + 1)
  }

  function Run(s: Store, ops: seq<Op>): Store
    decreases ops
  {
    if ops == [] then s else Run(Apply(s, ops[0]).0, ops[1..])
  }

  function Empty(): Store {
    Store(map[], None, 0)
  }

  // The invariant

  /** The key in memory is the one on disk, and the default root key is sealed under it. */
  ghost predicate Inv(s: Store) {
    && (ENCRYPTION_KEY_ID in s.bucket ==> s.bucket[ENCRYPTION_KEY_ID].Params?)
    && (forall id :: id in s.bucket && id != ENCRYPTION_KEY_ID ==> s.bucket[id].Sealed?)
    && (forall id :: id in s.bucket ==> s.bucket[id].key.salt < s.draws)
    && (forall id :: id in s.bucket && s.bucket[id].Sealed? ==> s.bucket[id].secret < s.draws)
    && (s.encKey.Some? ==> ENCRYPTION_KEY_ID in s.bucket && s.bucket[ENCRYPTION_KEY_ID] == Params(s.encKey.value))
    && (DEFAULT_ROOT_KEY_ID in s.bucket ==>
          ENCRYPTION_KEY_ID in s.bucket && s.bucket[DEFAULT_ROOT_KEY_ID].key == s.bucket[ENCRYPTION_KEY_ID].key)
  }

  lemma StepKeepsInv(s: Store, op: Op)
    requires Inv(s)
    ensures Inv(Apply(s, op).0)
  {
  }

  lemma {:induction false} RunKeepsInv(s: Store, ops: seq<Op>)
    requires Inv(s)
    ensures Inv(Run(s, ops))
    decreases ops
  {
    if ops != [] {
      StepKeepsInv(s, ops[0]);
      RunKeepsInv(Apply(s, ops[0]).0, ops[1..]);
    }
  }

  // The default root key

  function DefaultSecret(s: Store): Option<nat> {
    if DEFAULT_ROOT_KEY_ID in s.bucket && s.bucket[DEFAULT_ROOT_KEY_ID].Sealed?
    then Some(s.bucket[DEFAULT_ROOT_KEY_ID].secret) else None
  }

  /** Both ways of asking an unlocked store for the default root key answer with `secret`. */
  predicate Answers(s: Store, secret: nat) {
    && Apply(s, RootKey(Some(DEFAULT_ROOT_KEY_ID))) == (s, Ok(Secret(secret)))
    && Apply(s, Get(DEFAULT_ROOT_KEY_ID)) == (s, Ok(Secret(secret)))
  }

  /**
   Once it exists, the default root key is the same in every later unlocked state of any run that does not ask
   for a new one: across closing, reopening, unlocking and any number of password changes, failed or not.
   */
  lemma {:induction false} DefaultRootKeyStable(s: Store, ops: seq<Op>)
    requires Inv(s) && DefaultSecret(s).Some? && GenerateNewRootKey !in ops
    ensures DefaultSecret(Run(s, ops)) == DefaultSecret(s)
    ensures Run(s, ops).encKey.Some? ==> Answers(Run(s, ops), DefaultSecret(s).value)
    decreases ops
  {
    if ops != [] {
      assert ops[0] in ops;
      StepKeepsInv(s, ops[0]);
      DefaultRootKeyStable(Apply(s, ops[0]).0, ops[1..]);
    }
  }

  /** The first request for the default root key of an unlocked store creates the key that all later ones return. */
  lemma FirstRequestFixesRootKey(s: Store, ops: seq<Op>)
    requires Inv(s) && s.encKey.Some? && DefaultSecret(s).None? && GenerateNewRootKey !in ops
    ensures var (s', reply) := Apply(s, RootKey(Some(DEFAULT_ROOT_KEY_ID)));
            && reply.Ok? && reply.value.Secret?
            && (Run(s', ops).encKey.Some? ==> Answers(Run(s', ops), reply.value.secret))
  {
    StepKeepsInv(s, RootKey(Some(DEFAULT_ROOT_KEY_ID)));
    DefaultRootKeyStable(Apply(s, RootKey(Some(DEFAULT_ROOT_KEY_ID))).0, ops);
  }

  // The password

  /** The first successful unlock sets the password; each successful change replaces it. */
  function NextPassword(s: Store, password: Option<Bytes>, op: Op): Option<Bytes> {
    match op
    case CreateUnlock(p) => if Apply(s, op).1.Ok? && password.None? then p else password
    case ChangePassword(_, p) => if Apply(s, op).1.Ok? then p else password
    case _ => password
  }

  /** The password that the history of a run makes the valid one. */
  function PasswordAfter(s: Store, password: Option<Bytes>, ops: seq<Op>): Option<Bytes>
    decreases ops
  {
    if ops == [] then password
    else PasswordAfter(Apply(s, ops[0]).0, NextPassword(s, password, ops[0]), ops[1..])
  }

  ghost predicate PasswordIs(s: Store, password: Option<Bytes>) {
    if ENCRYPTION_KEY_ID in s.bucket then password == Some(s.bucket[ENCRYPTION_KEY_ID].key.password) else password.None?
  }

  lemma {:induction false} PasswordTracked(s: Store, password: Option<Bytes>, ops: seq<Op>)
    requires Inv(s) && PasswordIs(s, password)
    ensures PasswordIs(Run(s, ops), PasswordAfter(s, password, ops))
    decreases ops
  {
    if ops != [] {
      StepKeepsInv(s, ops[0]);
      PasswordTracked(Apply(s, ops[0]).0, NextPassword(s, password, ops[0]), ops[1..]);
    }
  }

  /** After any run from an empty database, a locked store opens to exactly one password: the newest. */
  lemma OnlyNewestPasswordUnlocks(ops: seq<Op>, p: Bytes)
    requires var s := Run(Empty(), ops); s.encKey.None? && ENCRYPTION_KEY_ID in s.bucket
    ensures Apply(Run(Empty(), ops), CreateUnlock(Some(p))).1.Ok? <==> PasswordAfter(Empty(), None, ops) == Some(p)
  {
    RunKeepsInv(Empty(), ops);
    PasswordTracked(Empty(), None, ops);
  }

  // Other root keys

  /** The run contains a password change that succeeds. */
  predicate ChangesPassword(s: Store, ops: seq<Op>)
    decreases ops
  {
    ops != [] && ((ops[0].ChangePassword? && Apply(s, ops[0]).1.Ok?) || ChangesPassword(Apply(s, ops[0]).0, ops[1..]))
  }

  predicate Readable(s: Store, id: Bytes) {
    ENCRYPTION_KEY_ID in s.bucket && id in s.bucket && s.bucket[id].key == s.bucket[ENCRYPTION_KEY_ID].key
  }

  /** One step on a key other than the default: only a successful password change affects it. */
  lemma OtherRootKeyStep(s: Store, op: Op, id: Bytes)
    requires Inv(s) && ENCRYPTION_KEY_ID in s.bucket && id in s.bucket
    requires id != ENCRYPTION_KEY_ID && id != DEFAULT_ROOT_KEY_ID && op != DeleteMacaroonId(id)
    ensures var s' := Apply(s, op).0;
            && Inv(s') && ENCRYPTION_KEY_ID in s'.bucket && id in s'.bucket && s'.bucket[id] == s.bucket[id]
            && (Readable(s', id) <==> Readable(s, id) && !(op.ChangePassword? && Apply(s, op).1.Ok?))
  {
    StepKeepsInv(s, op);
  }

  /** A key once unreadable stays so: the salt of its key is older than every key made later. */
  lemma {:induction false} UnreadableForever(s: Store, ops: seq<Op>, id: Bytes)
    requires Inv(s) && id in s.bucket && id != ENCRYPTION_KEY_ID && id != DEFAULT_ROOT_KEY_ID
    requires ENCRYPTION_KEY_ID in s.bucket && !Readable(s, id) && DeleteMacaroonId(id) !in ops
    ensures id in Run(s, ops).bucket && Run(s, ops).bucket[id] == s.bucket[id] && !Readable(Run(s, ops), id)
    decreases ops
  {
    if ops != [] {
      assert ops[0] in ops;
      OtherRootKeyStep(s, ops[0], id);
      UnreadableForever(Apply(s, ops[0]).0, ops[1..], id);
    }
  }

  lemma {:induction false} ReadableUntilChange(s: Store, ops: seq<Op>, id: Bytes)
    requires Inv(s) && Readable(s, id) && id != ENCRYPTION_KEY_ID && id != DEFAULT_ROOT_KEY_ID
    requires DeleteMacaroonId(id) !in ops
    ensures id in Run(s, ops).bucket && Run(s, ops).bucket[id] == s.bucket[id]
    ensures Readable(Run(s, ops), id) <==> !ChangesPassword(s, ops)
    decreases ops
  {
    if ops != [] {
      assert ops[0] in ops;
      OtherRootKeyStep(s, ops[0], id);
      var s' := Apply(s, ops[0]).0;
      if Readable(s', id) {
        ReadableUntilChange(s', ops[1..], id);
      } else {
        UnreadableForever(s', ops[1..], id);
      }
    }
  }

  /**
   A password change re-encrypts the default root key only. Any other root key stays on disk as it was, and an
   unlocked store can still return it exactly if no password change has succeeded since.
   */
  lemma OtherRootKeysReadableIff(s: Store, ops: seq<Op>, id: Bytes)
    requires Inv(s) && Readable(s, id) && id != ENCRYPTION_KEY_ID && id != DEFAULT_ROOT_KEY_ID
    requires DeleteMacaroonId(id) !in ops
    ensures id in Run(s, ops).bucket && Run(s, ops).bucket[id] == s.bucket[id]
    ensures Run(s, ops).encKey.Some? ==>
              Apply(Run(s, ops), Op.Get(id)).1 ==
                if ChangesPassword(s, ops) then Err(DecryptFailed) else Ok(Secret(s.bucket[id].secret))
  {
    RunKeepsInv(s, ops);
    ReadableUntilChange(s, ops, id);
  }

  // Refusals

  /** A call that fails changes nothing. */
  lemma FailureChangesNothing(s: Store, op: Op)
    ensures Apply(s, op).1.Err? ==> Apply(s, op).0 == s
  {
  }

  /** A locked store refuses everything but unlocking, closing and opening it anew. */
  lemma LockedStoreRefuses(s: Store, op: Op)
    requires s.encKey.None? && !op.CreateUnlock? && op != Close && op != Reopen
    ensures Apply(s, op) == (s, Err(StoreLocked))
  {
  }

  /** The password does not open the store, nor would it be the first. */
  predicate Wrong(s: Store, password: Option<Bytes>) {
    password.None? || (ENCRYPTION_KEY_ID in s.bucket && s.bucket[ENCRYPTION_KEY_ID].key.password != password.value)
  }

  /** What the calls of a run answer. */
  function Replies(s: Store, ops: seq<Op>): seq<Result<Reply, Error>>
    decreases ops
  {
    if ops == [] then [] else [Apply(s, ops[0]).1] + Replies(Apply(s, ops[0]).0, ops[1..])
  }

  predicate Reveals(r: Result<Reply, Error>) {
    r.Ok? && r.value.Secret?
  }

  /** A locked store changes nothing and reveals nothing over any run that does not offer it the right password. */
  lemma {:induction false} LockedRunRevealsNothing(s: Store, ops: seq<Op>)
    requires Inv(s) && s.encKey.None?
    requires forall p :: CreateUnlock(p) in ops ==> Wrong(s, p)
    ensures Run(s, ops) == s
    ensures forall i :: 0 <= i < |Replies(s, ops)| ==> !Reveals(Replies(s, ops)[i])
    decreases ops
  {
    if ops != [] {
      assert ops[0] in ops;
      if !ops[0].CreateUnlock? && ops[0] != Close && ops[0] != Reopen { LockedStoreRefuses(s, ops[0]); }
      assert Apply(s, ops[0]).0 == s && !Reveals(Apply(s, ops[0]).1);
      assert forall p :: CreateUnlock(p) in ops[1..] ==> CreateUnlock(p) in ops;
      LockedRunRevealsNothing(s, ops[1..]);
    }
  }

  /** After any run and a close, that is so for every password but the newest. */
  lemma ClosedStoreRevealsNothing(before: seq<Op>, after: seq<Op>)
    requires var s := Run(Empty(), before);
             ENCRYPTION_KEY_ID in s.bucket &&
             forall p :: CreateUnlock(p) in after ==> p.None? || p != PasswordAfter(Empty(), None, before)
    ensures var s := Apply(Run(Empty(), before), Close).0;
            Run(s, after) == s && forall i :: 0 <= i < |Replies(s, after)| ==> !Reveals(Replies(s, after)[i])
  {
    RunKeepsInv(Empty(), before);
    PasswordTracked(Empty(), None, before);
    var s := Apply(Run(Empty(), before), Close).0;
    StepKeepsInv(Run(Empty(), before), Close);
    LockedRunRevealsNothing(s, after);
  }

  /** Closing and opening anew lock the store and leave the database as it is. */
  lemma CloseLocks(s: Store)
    ensures Apply(s, Close) == (s.(encKey := None), Ok(Done)) == Apply(s, Reopen)
  {
  }

  /** Unlocking a locked store: any first password sets the key, later only the password that made it will do. */
  lemma CreateUnlockOutcome(s: Store, password: Option<Bytes>)
    requires Inv(s) && s.encKey.None?
    ensures var (s', r) := Apply(s, CreateUnlock(password));
            && (password.None? ==> r == Err(PasswordRequired))
            && (password.Some? ==> (r.Ok? <==> !Wrong(s, password)))
            && (password.Some? && Wrong(s, password) ==> r == Err(InvalidPassword))
            && (r.Ok? ==> s'.encKey.Some? && PasswordIs(s', password))
            && (r.Ok? ==> forall id :: id != ENCRYPTION_KEY_ID ==>
                  (id in s'.bucket <==> id in s.bucket) && (id in s.bucket ==> s'.bucket[id] == s.bucket[id]))
  {
  }

  /** Changing the password of an unlocked store: what it takes, and why it fails. */
  lemma ChangePasswordOutcome(s: Store, oldPw: Option<Bytes>, newPw: Option<Bytes>)
    requires Inv(s) && s.encKey.Some?
    ensures var (s', r) := Apply(s, Op.ChangePassword(oldPw, newPw));
            && (r == Err(PasswordRequired) <==> oldPw.None? || newPw.None?)
            && (r == Err(EncKeyNotFound) <==> oldPw.Some? && newPw.Some? && DEFAULT_ROOT_KEY_ID !in s.bucket)
            && (r == Err(InvalidPassword) <==>
                  oldPw.Some? && newPw.Some? && DEFAULT_ROOT_KEY_ID in s.bucket && Wrong(s, oldPw))
            && (r.Ok? <==> oldPw.Some? && newPw.Some? && DEFAULT_ROOT_KEY_ID in s.bucket && !Wrong(s, oldPw))
            && (r.Ok? ==> PasswordIs(s', newPw) && s'.encKey.Some? && s'.encKey != s.encKey)
  {
  }

  /** The parameters of the key itself are never answered. */
  lemma KeyIsNotARootKey(s: Store)
    requires Inv(s) && s.encKey.Some?
    ensures Apply(s, Op.Get(ENCRYPTION_KEY_ID)) == (s, Err(DecryptFailed))
  {
  }

  /** An unlocked store is not unlocked again, and the two reserved names are protected. */
  lemma UnlockedStoreRefuses(s: Store, op: Op)
    requires s.encKey.Some?
    ensures op.CreateUnlock? ==> Apply(s, op) == (s, Err(AlreadyUnlocked))
    ensures op == RootKey(None) ==> Apply(s, op) == (s, Err(ContextRootKeyId))
    ensures op == RootKey(Some("")) || op == DeleteMacaroonId("") ==> Apply(s, op) == (s, Err(MissingRootKeyId))
    ensures op == RootKey(Some(ENCRYPTION_KEY_ID)) ==> Apply(s, op) == (s, Err(KeyValueForbidden))
    ensures op == DeleteMacaroonId(ENCRYPTION_KEY_ID) || op == DeleteMacaroonId(DEFAULT_ROOT_KEY_ID) ==>
              Apply(s, op) == (s, Err(DeletionForbidden))
  {
  }

  /** Both ways of asking for a root key agree: for one that exists, and for one just made, which is a new one. */
  lemma RootKeyAgreesWithGet(s: Store, id: Bytes)
    requires Inv(s) && s.encKey.Some? && id != "" && id != ENCRYPTION_KEY_ID
    ensures var (s', r) := Apply(s, Op.RootKey(Some(id)));
            && r == Apply(s', Op.Get(id)).1
            && (id in s.bucket ==> s' == s)
            && (id !in s.bucket ==>
                  && Reveals(r)
                  && forall other :: other in s.bucket && s.bucket[other].Sealed? ==>
                       s.bucket[other].secret != r.value.secret)
  {
  }

  /** A new default root key takes effect at once, and differs from every root key stored before. */
  lemma NewRootKeyIsNew(s: Store)
    requires Inv(s) && s.encKey.Some?
    ensures var s' := Apply(s, GenerateNewRootKey).0;
            && DefaultSecret(s').Some? && Answers(s', DefaultSecret(s').value)
            && forall id :: id in s.bucket && s.bucket[id].Sealed? ==> s.bucket[id].secret != DefaultSecret(s').value
  {
  }

  /** Deleting finds exactly the ordinary root keys that are there. */
  lemma DeleteFindsIff(s: Store, id: Bytes)
    requires s.encKey.Some? && id != "" && id != ENCRYPTION_KEY_ID && id != DEFAULT_ROOT_KEY_ID
    ensures Apply(s, DeleteMacaroonId(id)).1 == Ok(Deleted(id in s.bucket))
    ensures id !in s.bucket ==> Apply(s, DeleteMacaroonId(id)).0 == s
  {
    assert id !in s.bucket ==> s.bucket - {id} == s.bucket;
  }

  /** A deleted root key is gone, a later request makes a different one, and every other key answers as before. */
  lemma DeletedIsGone(s: Store, id: Bytes)
    requires Inv(s) && Apply(s, DeleteMacaroonId(id)).1 == Ok(Deleted(true))
    ensures var s' := Apply(s, DeleteMacaroonId(id)).0;
            && Apply(s, Op.Get(id)).1 != Err(RootKeyIdNotFound) && Apply(s', Op.Get(id)).1 == Err(RootKeyIdNotFound)
            && Apply(s', Op.RootKey(Some(id))).1.Ok?
            && Apply(s', Op.RootKey(Some(id))).1 != Ok(Secret(s.bucket[id].secret))
            && forall other :: other != id ==> Apply(s', Op.Get(other)).1 == Apply(s, Op.Get(other)).1
  {
  }

  // The service's objects

  /** A SHA-256 digest, taken to identify what it was made from. */
  datatype Hash = Hash(content: Bytes)

  class Database {
    var roots: map<Bytes, Entry>         // the root-key bucket
    var passwordHash: Option<Hash>       // the password bucket, used by the unlocker
    var draws: nat

    constructor ()
      ensures roots == map[] && passwordHash == None && draws == 0
    {
      roots, passwordHash, draws := map[], None, 0;
    }
  }

  class RootKeyStorage {
    const db: Database
    var encKey: Option<Key>

    ghost function Contents(): Store
      reads this, db
    {
      Store(db.roots, encKey, db.draws)
    }

    constructor (db: Database)
      ensures this.db == db && encKey == None
    {
      this.db, encKey := db, None;
    }

    method Get(id: Bytes) returns (r: Result<Reply, Error>)
      ensures (Contents(), r) == Apply(Contents(), Op.Get(id))
    {
      if encKey == None {
        return Err(StoreLocked);
      }
      if id !in db.roots {
        return Err(RootKeyIdNotFound);
      }
      var secret := Decrypt(encKey.value, db.roots[id]);
      if secret.Err? {
        return Err(secret.error);
      }
      r := Ok(Secret(secret.value));
    }

    method GenerateAndStore(id: Bytes, key: Key) returns (secret: nat)
      modifies db`roots, db`draws
      ensures Contents() == Generated(old(Contents()), id, key) && secret == old(db.draws)
    {
      secret := db.draws;
      db.draws := db.draws + 1;
      db.roots := db.roots[id := Sealed(key, secret)];
    }

    method RootKey(id: Option<Bytes>) returns (r: Result<Reply, Error>)
      modifies db`roots, db`draws
      ensures (Contents(), r) == Apply(old(Contents()), Op.RootKey(id))
    {
      if encKey == None {
        return Err(StoreLocked);
      }
      if id.None? {
        return Err(ContextRootKeyId);
      }
      if id.value == "" {
        return Err(MissingRootKeyId);
      }
      if id.value == ENCRYPTION_KEY_ID {
        return Err(KeyValueForbidden);
      }
      if id.value in db.roots {
        var found := Decrypt(encKey.value, db.roots[id.value]);
        return Reveal(found);
      }
      var secret := GenerateAndStore(id.value, encKey.value);
      r := Ok(Secret(secret));
    }

    method CreateUnlock(password: Option<Bytes>) returns (r: Result<Reply, Error>)
      modifies this, db`roots, db`draws
      ensures (Contents(), r) == Apply(old(Contents()), Op.CreateUnlock(password))
    {
      if encKey != None {
        return Err(AlreadyUnlocked);
      }
      if password.None? {
        return Err(PasswordRequired);
      }
      if ENCRYPTION_KEY_ID in db.roots {
        var key := Derive(db.roots[ENCRYPTION_KEY_ID], password.value);
        if key.Err? {
          return Err(key.error);
        }
        encKey := Some(key.value);
        return Ok(Done);
      }
      var key := Key(password.value, db.draws);
      db.draws := db.draws + 1;
      db.roots := db.roots[ENCRYPTION_KEY_ID := Params(key)];
      encKey := Some(key);
      r := Ok(Done);
    }

    method Close()
      modifies this
      ensures Contents() == Apply(old(Contents()), Op.Close).0
    {
      if encKey != None {
        encKey := None;
      }
    }

    method ChangePassword(oldPw: Option<Bytes>, newPw: Option<Bytes>) returns (r: Result<Reply, Error>)
      modifies this, db`roots, db`draws
      ensures (Contents(), r) == Apply(old(Contents()), Op.ChangePassword(oldPw, newPw))
    {
      if encKey == None {
        return Err(StoreLocked);
      }
      if oldPw.None? || newPw.None? {
        return Err(PasswordRequired);
      }
      if ENCRYPTION_KEY_ID !in db.roots || DEFAULT_ROOT_KEY_ID !in db.roots {
        return Err(EncKeyNotFound);
      }
      var keyOld := Derive(db.roots[ENCRYPTION_KEY_ID], oldPw.value);
      if keyOld.Err? {
        return Err(keyOld.error);
      }
      var keyNew := Key(newPw.value, db.draws);
      var decrypted := Decrypt(keyOld.value, db.roots[DEFAULT_ROOT_KEY_ID]);
      if decrypted.Err? {
        return Err(decrypted.error);
      }
      db.draws := db.draws + 1;
      db.roots := db.roots[DEFAULT_ROOT_KEY_ID := Sealed(keyNew, decrypted.value)];
      db.roots := db.roots[ENCRYPTION_KEY_ID := Params(keyNew)];
      encKey := Some(keyNew);
      r := Ok(Done);
    }

    method GenerateNewRootKey() returns (r: Result<Reply, Error>)
      modifies db`roots, db`draws
      ensures (Contents(), r) == Apply(old(Contents()), Op.GenerateNewRootKey)
    {
      if encKey == None {
        return Err(StoreLocked);
      }
      var _ := GenerateAndStore(DEFAULT_ROOT_KEY_ID, encKey.value);
      r := Ok(Done);
    }

    method DeleteMacaroonId(id: Bytes) returns (r: Result<Reply, Error>)
      modifies db`roots
      ensures (Contents(), r) == Apply(old(Contents()), Op.DeleteMacaroonId(id))
    {
      if encKey == None {
        return Err(StoreLocked);
      }
      if |id| == 0 {
        return Err(MissingRootKeyId);
      }
      if id == ENCRYPTION_KEY_ID || id == DEFAULT_ROOT_KEY_ID {
        return Err(DeletionForbidden);
      }
      if id !in db.roots {
        assert db.roots - {id} == db.roots;
        return Ok(Deleted(false));
      }
      db.roots := db.roots - {id};
      r := Ok(Deleted(true));
    }
  }
}
