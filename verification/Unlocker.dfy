/**
 The unlocker service, which keeps a password hash beside the encrypted root-key store.

 A request that succeeds hands a password to the daemon, which unlocks the root-key store with it. The two
 buckets therefore have to agree on one password. A nil password has the content of the empty one; only the
 store's password change tells them apart.
 */
module Unlocker {
  import opened Wrappers
  import S = RootKeyStore

  type Bytes = S.Bytes

  /** Both buckets of the database. */
  datatype Vault = Vault(hash: Option<S.Hash>, bucket: map<Bytes, S.Entry>, draws: nat)

  datatype Failure =
    | PasswordAlreadySet | PasswordNotSet | WrongPassword | UnlockTimeout | FileError | Internal(error: S.Error)

  datatype Request =
    | SetPassword(password: Option<Bytes>)
    | Login(password: Option<Bytes>)
    | ChangePassword(current: Option<Bytes>, next: Option<Bytes>,
                     filesOk: bool) // no macaroon file had to be removed, or all could be

  function Content(password: Option<Bytes>): Bytes {
    if password.Some? then password.value else ""
  }

  /** A fresh, locked root-key store over the database. */
  function Locked(v: Vault): S.Store {
    S.Store(v.bucket, None, v.draws)
  }

  function WithStore(v: Vault, s: S.Store): Vault {
    v.(bucket := s.bucket, draws := s.draws)
  }

  function ReadPassword(v: Vault, password: Option<Bytes>): Option<Failure> {
    if v.hash.None? then Some(PasswordNotSet)
    else if v.hash.value != S.Hash(Content(password)) then Some(WrongPassword)
    else None
  }

  function Rehashed(v: Vault, password: Option<Bytes>): Vault {
    v.(hash := Some(S.Hash(Content(password))))
  }

  /** The part that works on the root-key store: unlock it with the old password, then change that. */
  function ChangeStore(v: Vault, current: Option<Bytes>, next: Option<Bytes>): (Vault, Result<S.Reply, S.Error>) {
    var (s, unlocked) := S.Apply(Locked(v), S.CreateUnlock(Some(Content(current))));
    if unlocked.Err? then (WithStore(v, s), unlocked)
    else
      var (s', changed) := S.Apply(s, S.ChangePassword(current, next));
      (WithStore(v, s'), changed)
  }

  /** What a request does to the database, and the password it hands over. */
  function Handle(v: Vault, req: Request): (Vault, Result<Option<Bytes>, Failure>) {
    match req
    case SetPassword(p) =>
      if v.hash.Some? then (v, Err(PasswordAlreadySet)) else (Rehashed(v, p), Ok(p))
    case Login(p) =>
      var failure := ReadPassword(v, p);
      if failure.Some? then (v, Err(failure.value)) else (v, Ok(p))
    case ChangePassword(current, next, filesOk) =>
      var failure := ReadPassword(v, current);
      if failure.Some? then (v, Err(failure.value))
      else if !filesOk then (Rehashed(v, next), Err(FileError))
      else
        var (v', r) := ChangeStore(Rehashed(v, next), current, next);
        (v', if r.Err? then Err(Internal(r.error)) else Ok(next))
  }

  // Agreement

  ghost predicate Inv(v: Vault) {
    S.Inv(Locked(v))
  }

  /** The password whose hash is stored is the one that opens the root-key store, if that exists yet. */
  predicate Agree(v: Vault) {
    S.ENCRYPTION_KEY_ID in v.bucket ==> v.hash == Some(S.Hash(v.bucket[S.ENCRYPTION_KEY_ID].key.password))
  }

  lemma HandleKeepsInv(v: Vault, req: Request)
    requires Inv(v)
    ensures Inv(Handle(v, req).0)
  {
    if req.ChangePassword? {
      var unlock := S.CreateUnlock(Some(Content(req.current)));
      S.StepKeepsInv(Locked(v), unlock);
      S.StepKeepsInv(S.Apply(Locked(v), unlock).0, S.ChangePassword(req.current, req.next));
    }
  }

  /** A login is accepted exactly for the password whose hash is stored, a first password exactly if there is none. */
  lemma AcceptedIff(v: Vault, p: Option<Bytes>)
    ensures Handle(v, Login(p)).1.Ok? <==> v.hash == Some(S.Hash(Content(p)))
    ensures Handle(v, Login(p)).1 == Err(PasswordNotSet) <==> v.hash.None?
    ensures Handle(v, SetPassword(p)).1.Ok? <==> v.hash.None?
  {
  }

  /** After a first password, exactly that one logs in, and no other can be set. */
  lemma SetThenLogin(v: Vault, p: Option<Bytes>, q: Option<Bytes>)
    requires v.hash.None?
    ensures var v' := Handle(v, SetPassword(p)).0;
            && (Handle(v', Login(q)).1.Ok? <==> Content(q) == Content(p))
            && Handle(v', SetPassword(q)) == (v', Err(PasswordAlreadySet))
            && v'.bucket == v.bucket
  {
  }

  /** A request that fails its first check changes nothing, a password change included. */
  lemma RefusedChangesNothing(v: Vault, req: Request)
    requires match req
             case SetPassword(_) => v.hash.Some?
             case Login(p) => v.hash != Some(S.Hash(Content(p)))
             case ChangePassword(current, _, _) => v.hash != Some(S.Hash(Content(current)))
    ensures Handle(v, req).0 == v && Handle(v, req).1.Err?
  {
  }

  /** A change that gets past the first check but fails in the store says why. */
  lemma FailedChangeSaysWhy(v: Vault, current: Option<Bytes>, next: Option<Bytes>)
    requires Inv(v) && v.hash == Some(S.Hash(Content(current)))
    ensures Handle(v, ChangePassword(current, next, false)) == (Rehashed(v, next), Err(FileError))
    ensures S.Wrong(Locked(v), Some(Content(current))) ==>
              Handle(v, ChangePassword(current, next, true)) == (Rehashed(v, next), Err(Internal(S.InvalidPassword)))
  {
  }

  lemma OtherRequestsKeepAgree(v: Vault, req: Request)
    requires Inv(v) && Agree(v) && !req.ChangePassword?
    requires v.hash.None? ==> S.ENCRYPTION_KEY_ID !in v.bucket
    ensures Agree(Handle(v, req).0)
  {
  }

  /**
   Changing the password overwrites the hash before it touches the root-key store, so the two agree afterwards
   exactly if the hash that was written suits the store the request ends with. All of this can be checked before
   the call: `p` is the store's password, or the one the call will create it with.
   */
  predicate ChangeWillAgree(v: Vault, current: Option<Bytes>, next: Option<Bytes>, filesOk: bool) {
    var stored := S.ENCRYPTION_KEY_ID in v.bucket;
    var p := if stored then v.bucket[S.ENCRYPTION_KEY_ID].key.password else Content(current);
    || (!stored && !filesOk)
    || Content(next) == p
    || (filesOk && p == Content(current) && current.Some? && next.Some? && S.DEFAULT_ROOT_KEY_ID in v.bucket)
  }

  /** What a rehashed vault and the work on its store come to, if the store refuses the old password. */
  lemma RefusedStoreAgreesIff(v: Vault, current: Option<Bytes>, next: Option<Bytes>)
    requires Inv(v) && S.Apply(Locked(v), S.CreateUnlock(Some(Content(current)))).1.Err?
    ensures Agree(ChangeStore(Rehashed(v, next), current, next).0) <==> ChangeWillAgree(v, current, next, true)
  {
  }

  /** ... and if it opens to it. */
  lemma OpenedStoreAgreesIff(v: Vault, current: Option<Bytes>, next: Option<Bytes>)
    requires Inv(v) && S.Apply(Locked(v), S.CreateUnlock(Some(Content(current)))).1.Ok?
    ensures Agree(ChangeStore(Rehashed(v, next), current, next).0) <==> ChangeWillAgree(v, current, next, true)
  {
    var unlock := S.CreateUnlock(Some(Content(current)));
    S.StepKeepsInv(Locked(v), unlock);
    S.StepKeepsInv(S.Apply(Locked(v), unlock).0, S.ChangePassword(current, next));
  }

  lemma ChangePasswordAgreesIff(v: Vault, current: Option<Bytes>, next: Option<Bytes>, filesOk: bool)
    requires Inv(v) && ReadPassword(v, current).None?
    ensures Agree(Handle(v, ChangePassword(current, next, filesOk)).0) <==> ChangeWillAgree(v, current, next, filesOk)
  {
    if filesOk {
      hide S.Apply, Inv, ChangeStore, ChangeWillAgree, Agree;
      if S.Apply(Locked(v), S.CreateUnlock(Some(Content(current)))).1.Ok? {
        OpenedStoreAgreesIff(v, current, next);
      } else {
        RefusedStoreAgreesIff(v, current, next);
      }
    }
  }

  /** It succeeds exactly when everything it needs is in place, and then the store opens to the new password only. */
  lemma ChangePasswordSucceedsIff(v: Vault, current: Option<Bytes>, next: Option<Bytes>, filesOk: bool)
    requires Inv(v) && Agree(v)
    ensures var (v', r) := Handle(v, ChangePassword(current, next, filesOk));
            && (r.Ok? <==>
                  && ReadPassword(v, current).None? && filesOk
                  && current.Some? && next.Some? && S.DEFAULT_ROOT_KEY_ID in v.bucket)
            && (r.Ok? ==>
                  && Agree(v') && S.DefaultSecret(Locked(v')) == S.DefaultSecret(Locked(v))
                  && forall p :: S.Apply(Locked(v'), S.CreateUnlock(Some(p))).1.Ok? <==> p == next.value)
  {
    S.StepKeepsInv(Locked(v), S.CreateUnlock(Some(Content(current))));
  }

  // Whole runs of the daemon

  datatype Outcome =
    | Refused(failure: Failure)
    | Unlocked
    | UnlockFailed(error: S.Error)

  /** One life of the daemon: a request, whether its password got through in time, and whether macaroons were baked. */
  datatype Session = Session(request: Request, received: bool, bakes: bool)

  function Serve(v: Vault, session: Session): (Vault, Outcome) {
    var (v', handed) := Handle(v, session.request);
    if handed.Err? then (v', Refused(handed.error))
    else if !session.received then (v', Refused(UnlockTimeout))
    else
      var (s, r) := S.Apply(Locked(v'), S.CreateUnlock(Some(Content(handed.value))));
      if r.Err? then (WithStore(v', s), UnlockFailed(r.error))
      else if session.bakes then
        (WithStore(v', S.Apply(s, S.RootKey(Some(S.DEFAULT_ROOT_KEY_ID))).0), Unlocked)
      else (WithStore(v', s), Unlocked)
  }

  /** A password that does not get through in time unlocks nothing. */
  lemma UnreceivedUnlocksNothing(v: Vault, session: Session)
    requires !session.received
    ensures Serve(v, session).0 == Handle(v, session.request).0 && Serve(v, session).1.Refused?
  {
  }

  /** The database after a run of sessions, and whether some accepted password failed to open the store. */
  function Run(v: Vault, sessions: seq<Session>): (Vault, bool)
    decreases sessions
  {
    if sessions == [] then (v, false)
    else
      var (v', outcome) := Serve(v, sessions[0]);
      var (end, failed) := Run(v', sessions[1..]);
      (end, outcome.UnlockFailed? || failed)
  }

  /** Each password change of the run is refused at the first check or leaves the buckets in agreement. */
  predicate CarefulRun(v: Vault, sessions: seq<Session>)
    decreases sessions
  {
    sessions == [] ||
    (Careful(v, sessions[0].request) && CarefulRun(Serve(v, sessions[0]).0, sessions[1..]))
  }

  predicate Careful(v: Vault, req: Request) {
    req.ChangePassword? && ReadPassword(v, req.current).None? ==> ChangeWillAgree(v, req.current, req.next, req.filesOk)
  }

  ghost predicate Sound(v: Vault) {
    Inv(v) && Agree(v) && (S.ENCRYPTION_KEY_ID in v.bucket ==> v.hash.Some?)
  }

  lemma HandleKeepsSound(v: Vault, req: Request)
    requires Sound(v) && Careful(v, req)
    ensures Sound(Handle(v, req).0)
    ensures Handle(v, req).1.Ok? ==> Handle(v, req).0.hash == Some(S.Hash(Content(Handle(v, req).1.value)))
  {
    HandleKeepsInv(v, req);
    if req.ChangePassword? && ReadPassword(v, req.current).None? {
      ChangePasswordAgreesIff(v, req.current, req.next, req.filesOk);
    }
  }

  lemma UnlockKeepsSound(v: Vault, password: Bytes)
    requires Sound(v) && v.hash == Some(S.Hash(password))
    ensures var (s, r) := S.Apply(Locked(v), S.CreateUnlock(Some(password)));
            && r.Ok? && Sound(WithStore(v, s)) && S.Inv(s)
            && Sound(WithStore(v, S.Apply(s, S.RootKey(Some(S.DEFAULT_ROOT_KEY_ID))).0))
  {
    S.StepKeepsInv(Locked(v), S.CreateUnlock(Some(password)));
    var s := S.Apply(Locked(v), S.CreateUnlock(Some(password))).0;
    S.StepKeepsInv(s, S.RootKey(Some(S.DEFAULT_ROOT_KEY_ID)));
  }

  lemma ServeKeepsSound(v: Vault, session: Session)
    requires Sound(v) && Careful(v, session.request)
    ensures Sound(Serve(v, session).0) && !Serve(v, session).1.UnlockFailed?
  {
    HandleKeepsSound(v, session.request);
    var (v', handed) := Handle(v, session.request);
    if handed.Ok? {
      UnlockKeepsSound(v', Content(handed.value));
    }
  }

  /** In every such run from a sound database, an empty one for instance, an accepted password opens the store. */
  lemma {:induction false} HandedPasswordAlwaysUnlocks(v: Vault, sessions: seq<Session>)
    requires Sound(v) && CarefulRun(v, sessions)
    ensures !Run(v, sessions).1 && Agree(Run(v, sessions).0)
    decreases sessions
  {
    if sessions != [] {
      ServeKeepsSound(v, sessions[0]);
      HandedPasswordAlwaysUnlocks(Serve(v, sessions[0]).0, sessions[1..]);
    }
  }

  /** Without the care: a change before any macaroon was baked is refused, yet only its new password is accepted. */
  lemma HastyChangeLocksOut(first: Bytes, second: Bytes)
    requires first != second
    ensures Run(Vault(None, map[], 0),
                [Session(SetPassword(Some(first)), true, false),
                 Session(ChangePassword(Some(first), Some(second), true), true, false),
                 Session(Login(Some(second)), true, false)]).1
  {
    var a := Session(SetPassword(Some(first)), true, false);
    var b := Session(ChangePassword(Some(first), Some(second), true), true, false);
    var c := Session(Login(Some(second)), true, false);
    assert [a, b, c][1..] == [b, c] && [b, c][1..] == [c] && [c][1..] == [];
    var v := Vault(None, map[], 0);
    var v1 := Serve(v, a).0;
    var v2 := Serve(v1, b).0;
    assert Serve(v2, c).1 == UnlockFailed(S.InvalidPassword);
    assert Run(v2, [c]).1;
    assert Run(v1, [b, c]).1;
  }

  // The service

  class UnlockerService {
    const db: S.Database
    var messages: seq<Option<Bytes>> // the password channel, capacity one

    ghost function Contents(): Vault
      reads db
    {
      Vault(db.passwordHash, db.roots, db.draws)
    }

    constructor (db: S.Database)
      ensures this.db == db && messages == []
    {
      this.db, messages := db, [];
    }

    method StorePassword(password: Option<Bytes>, overwrite: bool) returns (failure: Option<Failure>)
      modifies db`passwordHash
      ensures failure == if old(db.passwordHash).Some? && !overwrite then Some(PasswordAlreadySet) else None
      ensures Contents() == if failure.Some? then old(Contents()) else Rehashed(old(Contents()), password)
    {
      if db.passwordHash.Some? && !overwrite {
        return Some(PasswordAlreadySet);
      }
      db.passwordHash := Some(S.Hash(Content(password)));
      failure := None;
    }

    method CheckPassword(password: Option<Bytes>) returns (failure: Option<Failure>)
      ensures failure == ReadPassword(Contents(), password)
    {
      if db.passwordHash.None? {
        return Some(PasswordNotSet);
      }
      if db.passwordHash.value != S.Hash(Content(password)) {
        return Some(WrongPassword);
      }
      failure := None;
    }

    /** The select that ends every request; `expired` says that the caller's deadline comes first. */
    method HandOver(password: Option<Bytes>, expired: bool) returns (r: Result<(), Failure>)
      modifies this`messages
      ensures r == if old(messages) == [] && !expired then Ok(()) else Err(UnlockTimeout)
      ensures messages == if r.Ok? then [password] else old(messages)
    {
      if |messages| < 1 && !expired {
        messages := messages + [password];
        return Ok(());
      }
      r := Err(UnlockTimeout);
    }

    ghost predicate Replied(before: Vault, queued: seq<Option<Bytes>>, req: Request, expired: bool,
                            r: Result<(), Failure>)
      reads this, db
    {
      var (after, handed) := Handle(before, req);
      && Contents() == after
      && (handed.Err? ==> r == Err(handed.error) && messages == queued)
      && (handed.Ok? ==>
            if queued == [] && !expired then r == Ok(()) && messages == [handed.value]
            else r == Err(UnlockTimeout) && messages == queued)
    }

    method HandleSetPassword(password: Option<Bytes>, expired: bool) returns (r: Result<(), Failure>)
      modifies this`messages, db`passwordHash
      ensures Replied(old(Contents()), old(messages), SetPassword(password), expired, r)
    {
      var failure := StorePassword(password, false);
      if failure.Some? {
        return Err(failure.value);
      }
      r := HandOver(password, expired);
    }

    method HandleLogin(password: Option<Bytes>, expired: bool) returns (r: Result<(), Failure>)
      modifies this`messages
      ensures Replied(old(Contents()), old(messages), Login(password), expired, r)
    {
      var failure := CheckPassword(password);
      if failure.Some? {
        return Err(failure.value);
      }
      r := HandOver(password, expired);
    }

    method ReplaceStorePassword(current: Option<Bytes>, next: Option<Bytes>) returns (r: Result<S.Reply, S.Error>)
      modifies db`roots, db`draws
      ensures (Contents(), r) == ChangeStore(old(Contents()), current, next)
    {
      var store := new S.RootKeyStorage(db);
      r := store.CreateUnlock(Some(Content(current)));
      if r.Err? {
        store.Close();
        return;
      }
      r := store.ChangePassword(current, next);
      store.Close();
    }

    method HandleChangePassword(current: Option<Bytes>, next: Option<Bytes>, filesOk: bool, expired: bool)
      returns (r: Result<(), Failure>)
      modifies this`messages, db
      ensures Replied(old(Contents()), old(messages), ChangePassword(current, next, filesOk), expired, r)
    {
      var failure := CheckPassword(current);
      if failure.Some? {
        return Err(failure.value);
      }
      failure := StorePassword(next, true);
      if !filesOk {
        return Err(FileError);
      }
      var changed := ReplaceStorePassword(current, next);
      if changed.Err? {
        return Err(Internal(changed.error));
      }
      r := HandOver(next, expired);
    }
  }
}
