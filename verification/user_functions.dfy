/** The server-side functions over the `users` collection: create a profile
    when an account is created, delete it when the account is deleted, and
    the callable that promotes a user to admin. The collection is a map from
    uid to profile; every store call is replaced by its outcome. */
module UserFunctions {
  import opened Prelude
  import opened Types

  type Users = map<string, User>

  /** Outcome of one store call. */
  datatype IoResult = IoOk | IoFailed(code: string)

  /** The profile created for a new account: role user, email defaulting to
      the empty string, the display-name fallback chain, the server time. */
  function NewUserDoc(a: Account, now: Timestamp): (u: User)
    ensures u.uid == a.uid && u.role == UserRole
    ensures u.email == a.email.GetOr("")
    ensures u.displayName == DefaultDisplayName(a.displayName, a.email)
    ensures u.subordinates.None? && u.createdAt == Some(now)
  {
    User(a.uid, a.email.GetOr(""), DefaultDisplayName(a.displayName, a.email), UserRole, None, Some(now))
  }

  /** `onUserCreate`: skip an account that already has a profile, otherwise
      store a new one. A failed read or write is rethrown and leaves the
      collection as it was. */
  function OnUserCreate(db: Users, a: Account, now: Timestamp, read: IoResult, write: IoResult): (r: (Users, Completion<()>))
    ensures read.IoFailed? ==> r == (db, Threw(read.code))
    ensures read.IoOk? && a.uid in db ==> r == (db, Returned(()))
    ensures read.IoOk? && a.uid !in db && write.IoFailed? ==> r == (db, Threw(write.code))
    ensures read.IoOk? && a.uid !in db && write.IoOk? ==>
      && r.1 == Returned(())
      && r.0.Keys == db.Keys + {a.uid}
      && r.0[a.uid] == NewUserDoc(a, now)
      && (forall k | k in db :: r.0[k] == db[k])
    ensures forall k | k in db :: k in r.0 && r.0[k] == db[k]
    ensures forall k | k in r.0 && k !in db :: k == a.uid && r.0[k].role != Admin
  {
    match read
    case IoFailed(code) => (db, Threw(code))
    case IoOk =>
      if a.uid in db then (db, Returned(()))
      else match write
        case IoFailed(code) => (db, Threw(code))
        case IoOk => (db[a.uid := NewUserDoc(a, now)], Returned(()))
  }

  /** `onUserDelete`: remove the account's profile, present or not. A failed
      delete is rethrown and leaves the collection as it was. */
  function OnUserDelete(db: Users, uid: string, io: IoResult): (r: (Users, Completion<()>))
    ensures io.IoOk? ==>
      && r.1 == Returned(())
      && r.0.Keys == db.Keys - {uid}
      && forall k | k in r.0 :: r.0[k] == db[k]
    ensures io.IoFailed? ==> r == (db, Threw(io.code))
  {
    match io
    case IoOk => (db - {uid}, Returned(()))
    case IoFailed(code) => (db, Threw(code))
  }

  /** Deleting an account created moments before restores the collection. */
  lemma CreateThenDeleteRestores(db: Users, a: Account, now: Timestamp)
    requires a.uid !in db
    ensures OnUserDelete(OnUserCreate(db, a, now, IoOk, IoOk).0, a.uid, IoOk).0 == db
  {
  }

  /** The `userId` field of the callable's payload. */
  datatype Argument = Missing | NotAString | Str(s: string)

  /** Error codes of the callable. */
  datatype CallError = Unauthenticated | PermissionDenied | InvalidArgument | Internal

  /** The callable's result: the confirmation message, or an error code. */
  datatype CallResult = Success(message: string) | Failure(error: CallError)

  /** The caller has an admin profile. */
  predicate CallerIsAdmin(db: Users, caller: string) {
    caller in db && db[caller].role == Admin
  }

  /** `setAdminRole`: checked in order, an anonymous call is refused as
      unauthenticated, a caller without an admin profile as permission
      denied, a missing, non-string or empty `userId` as an invalid
      argument. Then only the target's role becomes admin; updating a
      profile that does not exist, or any failed update, is an internal
      error. Every refusal leaves the collection as it was. */
  function SetAdminRole(db: Users, caller: Option<string>, userId: Argument, update: IoResult): (r: (Users, CallResult))
    ensures r.1.Failure? ==> r.0 == db
    ensures caller.None? ==> r.1 == Failure(Unauthenticated)
    ensures caller.Some? && !CallerIsAdmin(db, caller.value) ==> r.1 == Failure(PermissionDenied)
    ensures caller.Some? && CallerIsAdmin(db, caller.value) && !(userId.Str? && userId.s != "") ==>
      r.1 == Failure(InvalidArgument)
    ensures r.1.Success? <==>
      && caller.Some? && CallerIsAdmin(db, caller.value)
      && userId.Str? && userId.s != "" && userId.s in db
      && update.IoOk?
    ensures (caller.Some? && CallerIsAdmin(db, caller.value) && userId.Str? && userId.s != ""
             && (userId.s !in db || update.IoFailed?)) ==> r.1 == Failure(Internal)
    ensures r.1.Success? ==>
      && r.0.Keys == db.Keys
      && r.0[userId.s] == db[userId.s].(role := Admin)
      && (forall k | k in db && k != userId.s :: r.0[k] == db[k])
      && r.1.message == "User " + userId.s + " is now an admin"
  {
    if caller.None? then (db, Failure(Unauthenticated))
    else if !(caller.value in db && db[caller.value].role == Admin) then (db, Failure(PermissionDenied))
    else match userId
      case Str(id) =>
        if id == "" then (db, Failure(InvalidArgument))
        else if id !in db || update.IoFailed? then (db, Failure(Internal))
        else (db[id := db[id].(role := Admin)], Success("User " + id + " is now an admin"))
      case _ => (db, Failure(InvalidArgument))
  }

  /** Promoting the same user again succeeds and changes nothing more. */
  lemma SetAdminRoleIdempotent(db: Users, caller: Option<string>, userId: Argument)
    requires SetAdminRole(db, caller, userId, IoOk).1.Success?
    ensures var db' := SetAdminRole(db, caller, userId, IoOk).0;
      SetAdminRole(db', caller, userId, IoOk) == (db', SetAdminRole(db, caller, userId, IoOk).1)
  {
    var db' := SetAdminRole(db, caller, userId, IoOk).0;
    var id := userId.s;
    assert db'[id].(role := Admin) == db'[id];
    assert db'[id := db'[id].(role := Admin)] == db';
  }

  /** No call, successful or not, takes admin rights away from anyone or
      grants them to anyone but the named user. */
  lemma SetAdminRoleMonotone(db: Users, caller: Option<string>, userId: Argument, update: IoResult)
    ensures var db' := SetAdminRole(db, caller, userId, update).0;
      && db'.Keys == db.Keys
      && (forall k | k in db && db[k].role == Admin :: db'[k].role == Admin)
      && (forall k | k in db && db'[k].role == Admin && db[k].role != Admin :: userId == Str(k))
  {
  }
}
