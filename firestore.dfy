/** The client's Firestore operations (src/firebase/firestore.ts): the `saveUser`
    upsert, the room flag update, the key-lease transaction over `users/{uid}` and
    the singleton `keys/main` document, and `addLog`. Every failure is rethrown as
    the `FirestoreError` that `handleFirestoreError` makes of it. */
module Firestore {
  import opened Wrappers
  import opened AppTypes
  import opened ErrorHandler

  type Users = map<string, UserDoc>

  /** What Firestore throws when an update names a document that does not exist. The
      SDK follows it with the document's full resource path (project, database and
      `users/{uid}`); the path is elided here, since no caller reads it. */
  const NoDocumentMessage := "No document to update"

  // ---------------------------------------------------------------------------
  // The key lease

  /** The key-lease invariant: every user whose flag is set is the lease holder, and
      a named holder is a stored user whose flag is set. With no holder, no flag is set.
      Firestore document ids are never empty. */
  predicate LeaseInvariant(users: Users, holder: Option<string>) {
    "" !in users &&
    (forall u :: u in users && users[u].hasKey ==> holder == Some(u)) &&
    (holder.Some? ==> holder.value in users && users[holder.value].hasKey)
  }

  /** Under the invariant at most one user holds the key. */
  lemma AtMostOneHolder(users: Users, holder: Option<string>, a: string, b: string)
    requires LeaseInvariant(users, holder)
    requires a in users && b in users && users[a].hasKey && users[b].hasKey
    ensures a == b
  {
  }

  /** The documents the key transaction reads and writes: the users and the holder
      named by `keys/main` (a missing `keys/main` reads as holder null). */
  datatype KeyState = KeyState(users: Users, holder: Option<string>)

  /** A user document with its key flag set and its activity time refreshed. */
  function WithKey(u: UserDoc, hasKey: bool, now: int): (d: UserDoc)
    ensures d.hasKey == hasKey && d.lastActivity == now
    ensures d.(hasKey := u.hasKey, lastActivity := u.lastActivity) == u
  {
    u.(hasKey := hasKey, lastActivity := now)
  }

  /** The transaction body of `updateUserKeyStatus(uid, true)`. `None` means the
      transaction aborts because a document it updates does not exist. A holder
      that is the empty string counts as no holder, as `holderUid &&` does. */
  function AcquireKey(s: KeyState, uid: string, now: int): (r: Option<KeyState>)
    ensures r.Some? ==> uid in s.users && r.value.users.Keys == s.users.Keys
    ensures r.Some? ==> r.value.holder == Some(uid) && r.value.users[uid].hasKey
  {
    var current := s.holder.GetOr("");
    var evict := current != "" && current != uid;
    if evict && current !in s.users then None
    else if uid !in s.users then None
    else
      var users1 := if evict then s.users[current := WithKey(s.users[current], false, now)] else s.users;
      Some(KeyState(users1[uid := WithKey(users1[uid], true, now)], Some(uid)))
  }

  /** The transaction body of `updateUserKeyStatus(uid, false)`: it aborts only for
      a caller without a document. */
  function ReleaseKey(s: KeyState, uid: string, now: int): (r: Option<KeyState>)
    ensures r.Some? <==> uid in s.users
    ensures r.Some? ==> r.value.users.Keys == s.users.Keys
    ensures r.Some? ==> !r.value.users[uid].hasKey && r.value.holder != Some(uid)
  {
    if uid !in s.users then None
    else Some(KeyState(s.users[uid := WithKey(s.users[uid], false, now)],
                       if s.holder == Some(uid) then None else s.holder))
  }

  /** The transaction of `updateUserKeyStatus(uid, hasKey)`: on success the
      caller's flag is `hasKey`, and the lease names the caller exactly when it took
      the key. */
  function KeyTransaction(s: KeyState, uid: string, hasKey: bool, now: int): (r: Option<KeyState>)
    ensures r.Some? ==> uid in r.value.users && r.value.users[uid].hasKey == hasKey
    ensures r.Some? ==> (r.value.holder == Some(uid) <==> hasKey)
  {
    if hasKey then AcquireKey(s, uid, now) else ReleaseKey(s, uid, now)
  }

  /** Acquire: a different holder loses the flag, the caller gets it and becomes the
      holder, nobody else is touched. It aborts exactly when the caller's document or
      a different current holder's document is missing. */
  lemma AcquireEffect(s: KeyState, uid: string, now: int)
    ensures AcquireKey(s, uid, now).Some? <==>
              uid in s.users &&
              (s.holder.GetOr("") == "" || s.holder.value == uid || s.holder.value in s.users)
    ensures AcquireKey(s, uid, now).Some? ==>
              var t := AcquireKey(s, uid, now).value;
              t.holder == Some(uid) &&
              t.users.Keys == s.users.Keys &&
              t.users[uid] == WithKey(s.users[uid], true, now) &&
              (forall v :: v in s.users && v != uid ==>
                 t.users[v] == if s.holder == Some(v) && v != "" then WithKey(s.users[v], false, now) else s.users[v])
  {
  }

  /** Acquire by the current holder changes no other user. */
  lemma AcquireByHolder(s: KeyState, uid: string, now: int)
    requires s.holder == Some(uid) && uid in s.users
    ensures AcquireKey(s, uid, now) == Some(KeyState(s.users[uid := WithKey(s.users[uid], true, now)], Some(uid)))
  {
  }

  /** Release: the caller's flag is cleared, the lease is cleared only when it named
      the caller, and no other user is touched. */
  lemma ReleaseEffect(s: KeyState, uid: string, now: int)
    ensures ReleaseKey(s, uid, now).Some? <==> uid in s.users
    ensures ReleaseKey(s, uid, now).Some? ==>
              var t := ReleaseKey(s, uid, now).value;
              t.users.Keys == s.users.Keys &&
              !t.users[uid].hasKey &&
              (t.holder == if s.holder == Some(uid) then None else s.holder) &&
              (forall v :: v in s.users && v != uid ==> t.users[v] == s.users[v])
  {
  }

  /** Acquire keeps the lease invariant, and under it acquire fails only for a caller
      without a user document. */
  lemma AcquirePreservesLease(s: KeyState, uid: string, now: int)
    requires LeaseInvariant(s.users, s.holder)
    ensures AcquireKey(s, uid, now).Some? <==> uid in s.users
    ensures AcquireKey(s, uid, now).Some? ==>
              LeaseInvariant(AcquireKey(s, uid, now).value.users, AcquireKey(s, uid, now).value.holder)
  {
    if uid in s.users {
      var t := AcquireKey(s, uid, now).value;
      forall u | u in t.users && t.users[u].hasKey
        ensures t.holder == Some(u)
      {
        if u != uid {
          assert false;
        }
      }
    }
  }

  /** Release keeps the lease invariant. */
  lemma ReleasePreservesLease(s: KeyState, uid: string, now: int)
    requires LeaseInvariant(s.users, s.holder)
    ensures ReleaseKey(s, uid, now).Some? ==>
              LeaseInvariant(ReleaseKey(s, uid, now).value.users, ReleaseKey(s, uid, now).value.holder)
  {
    if uid in s.users {
      var t := ReleaseKey(s, uid, now).value;
      forall u | u in t.users && t.users[u].hasKey
        ensures t.holder == Some(u)
      {
        assert u != uid;
        assert s.users[u].hasKey;
      }
    }
  }

  /** Serialised acquisitions by two users: the second takes the key from the first. */
  lemma AcquireThenAcquire(s: KeyState, a: string, b: string, now1: int, now2: int)
    requires LeaseInvariant(s.users, s.holder)
    requires a in s.users && b in s.users && a != b && a != ""
    ensures AcquireKey(s, a, now1).Some?
    ensures AcquireKey(AcquireKey(s, a, now1).value, b, now2).Some?
    ensures var t := AcquireKey(AcquireKey(s, a, now1).value, b, now2).value;
            !t.users[a].hasKey && t.users[b].hasKey && t.holder == Some(b)
  {
    AcquirePreservesLease(s, a, now1);
    var s1 := AcquireKey(s, a, now1).value;
    AcquirePreservesLease(s1, b, now2);
  }

  /** `release(A)` while `B` holds the key leaves B's flag and the lease alone. */
  lemma ReleaseByNonHolder(s: KeyState, a: string, b: string, now: int)
    requires LeaseInvariant(s.users, s.holder)
    requires s.holder == Some(b) && a != b && a in s.users
    ensures ReleaseKey(s, a, now).Some?
    ensures var t := ReleaseKey(s, a, now).value;
            t.holder == Some(b) && t.users[b] == s.users[b] && t.users[b].hasKey
  {
  }

  // ---------------------------------------------------------------------------
  // User documents

  /** The document `saveUser` leaves for `user`: an existing document keeps its
      room flags, key flag, creation time and stored token and only refreshes the
      profile fields; a new document stores every given field with both timestamps
      set to the same time. */
  function SavedUser(users: Users, user: NewUser, now: int): (d: UserDoc)
    requires user.avatar.Some?
    ensures d.name == user.name && d.email == user.email && d.avatar == user.avatar.value
    ensures d.provider == user.provider && d.lastActivity == now
    ensures user.uid in users ==>
              var old_ := users[user.uid];
              d.uid == old_.uid && d.slackUserId == old_.slackUserId && d.slackTeamId == old_.slackTeamId &&
              d.room2218 == old_.room2218 && d.gradRoom == old_.gradRoom && d.hasKey == old_.hasKey &&
              d.createdAt == old_.createdAt && d.slackUserToken == old_.slackUserToken
    ensures user.uid !in users ==>
              d.uid == user.uid && d.slackUserId == user.slackUserId && d.slackTeamId == user.slackTeamId &&
              d.room2218 == user.room2218 && d.gradRoom == user.gradRoom && d.hasKey == user.hasKey &&
              d.createdAt == now && d.slackUserToken == None
  {
    if user.uid in users then
      users[user.uid].(name := user.name, email := user.email, avatar := user.avatar.value,
                       provider := user.provider, lastActivity := now)
    else
      UserDoc(user.uid, user.name, user.email, user.avatar.value, user.provider, user.slackUserId,
              user.slackTeamId, user.room2218, user.gradRoom, user.hasKey, now, now, None)
  }

  /** `saveUser` keeps the lease invariant when it creates no key holder: the caller
      passes `hasKey: false`, or the user exists and keeps its stored flag. */
  lemma SaveUserPreservesLease(users: Users, holder: Option<string>, user: NewUser, now: int)
    requires LeaseInvariant(users, holder) && user.avatar.Some?
    requires user.uid != "" && (user.uid in users || !user.hasKey)
    ensures LeaseInvariant(users[user.uid := SavedUser(users, user, now)], holder)
  {
  }

  /** What `saveUser` leaves behind, given the error it reports and the users after it:
      nothing on failure, the saved profile otherwise, and the lease invariant kept. */
  lemma SaveUserOutcome(users: Users, holder: Option<string>, user: NewUser, now: int, saved: bool, users': Users)
    requires !saved ==> users' == users
    requires saved ==> user.uid != "" && user.avatar.Some? && users' == users[user.uid := SavedUser(users, user, now)]
    ensures LeaseInvariant(users, holder) && (user.uid in users || !user.hasKey) ==> LeaseInvariant(users', holder)
  {
    if saved && LeaseInvariant(users, holder) && (user.uid in users || !user.hasKey) {
      SaveUserPreservesLease(users, holder, user, now);
    }
  }

  /** A user document with one room flag set and its activity time refreshed. */
  function WithRoom(u: UserDoc, room: RoomType, status: bool, now: int): (d: UserDoc)
    ensures RoomFlag(d, room) == status && d.lastActivity == now
    ensures room == Room2218 ==> d.(room2218 := u.room2218, lastActivity := u.lastActivity) == u
    ensures room == GradRoom ==> d.(gradRoom := u.gradRoom, lastActivity := u.lastActivity) == u
  {
    match room
    case Room2218 => u.(room2218 := status, lastActivity := now)
    case GradRoom => u.(gradRoom := status, lastActivity := now)
  }

  /** A room update touches neither key flag nor lease, so it keeps the invariant. */
  lemma RoomUpdatePreservesLease(users: Users, holder: Option<string>, uid: string, room: RoomType, status: bool, now: int)
    requires LeaseInvariant(users, holder) && uid in users
    ensures LeaseInvariant(users[uid := WithRoom(users[uid], room, status, now)], holder)
  {
  }

  /** What `doc(collection, id)` throws for an empty id. */
  const EmptyPathMessage := "Function doc() cannot be called with an empty path."

  /** Why an operation on `users/{uid}` fails, in the order the source meets the
      causes: the document reference for an empty id throws first, then the
      environment's fault, then Firestore's refusal to update a missing document. */
  function FailureCause(uid: string, fault: Option<Thrown>, documentMissing: bool): (c: Option<Thrown>)
    ensures c.None? <==> uid != "" && fault.None? && !documentMissing
  {
    if uid == "" then Some(ErrorValue(EmptyPathMessage))
    else if fault.Some? then fault
    else if documentMissing then Some(ErrorValue(NoDocumentMessage))
    else None
  }

  // The fixed parts of Firestore's invalid-data error for an `undefined` avatar.
  const InvalidDataText := "() called with invalid data. "
  const UnsupportedUndefinedText := "Unsupported field value: undefined "
  const FoundInAvatarText := "(found in field avatar in document users/"

  /** What Firestore's client-side data check throws when `saveUser` writes an
      `undefined` avatar: `updateDoc` names it for an existing document, `setDoc` for
      a new one. */
  function UndefinedAvatarMessage(existing: bool, uid: string): string {
    "Function " + (if existing then "updateDoc" else "setDoc") + InvalidDataText + UnsupportedUndefinedText +
    FoundInAvatarText + uid + ")"
  }

  /** Why `saveUser` fails: the causes every operation shares, then the write of an
      `undefined` avatar, which both branches reject before anything is stored. */
  function SaveUserFailure(users: Users, user: NewUser, fault: Option<Thrown>): (c: Option<Thrown>)
    ensures c.None? <==> user.uid != "" && fault.None? && user.avatar.Some?
    ensures user.uid == "" || fault.Some? ==> c == FailureCause(user.uid, fault, false)
    ensures user.uid != "" && fault.None? && user.avatar.None? ==>
              c == Some(ErrorValue(UndefinedAvatarMessage(user.uid in users, user.uid)))
  {
    match FailureCause(user.uid, fault, false)
    case Some(e) => Some(e)
    case None =>
      if user.avatar.None? then Some(ErrorValue(UndefinedAvatarMessage(user.uid in users, user.uid))) else None
  }

  /** The `catch` block shared by every operation: rethrow the cause as a `FirestoreError`. */
  function Rethrow(cause: Option<Thrown>): (thrown: Option<AppError>)
    ensures thrown.None? <==> cause.None?
    ensures cause.Some? ==> thrown == Some(HandleFirestoreError(cause.value)) && thrown.value.code == "FIRESTORE_ERROR"
  {
    match cause
    case None => None
    case Some(e) => Some(HandleFirestoreError(e))
  }

  /** The Firestore collections the client writes: `users`, `keys/main` and `logs`.
      `fault` stands for a failure the environment raises (network, permissions);
      each call either fails with nothing written or commits all its writes. */
  class Store {
    var users: Users
    var holder: Option<string>
    var logs: seq<LogDoc>

    constructor ()
      ensures users == map[] && holder == None && logs == []
    {
      users := map[];
      holder := None;
      logs := [];
    }

    /** `saveUser`: read, then update the profile fields or create the document. An
        `undefined` avatar makes either write throw, so nothing is stored. */
    method SaveUser(user: NewUser, now: int, fault: Option<Thrown>) returns (thrown: Option<AppError>)
      modifies this
      ensures holder == old(holder) && logs == old(logs)
      ensures thrown == Rethrow(SaveUserFailure(old(users), user, fault))
      ensures thrown.Some? ==> users == old(users)
      ensures thrown.None? ==> users == old(users)[user.uid := SavedUser(old(users), user, now)]
      ensures LeaseInvariant(old(users), old(holder)) && (user.uid in old(users) || !user.hasKey)
              ==> LeaseInvariant(users, holder)
    {
      var before := users;
      var cause := SaveUserFailure(before, user, fault);
      thrown := Rethrow(cause);
      var after := if cause.None? then before[user.uid := SavedUser(before, user, now)] else before;
      SaveUserOutcome(before, holder, user, now, cause.None?, after);
      users := after;
    }

    /** `updateUserRoomStatus`: sets exactly the named room flag and the activity time. */
    method UpdateUserRoomStatus(uid: string, room: RoomType, status: bool, now: int, fault: Option<Thrown>)
      returns (thrown: Option<AppError>)
      modifies this
      ensures holder == old(holder) && logs == old(logs)
      ensures thrown == Rethrow(FailureCause(uid, fault, uid !in old(users)))
      ensures thrown.Some? ==> users == old(users)
      ensures thrown.None? ==> users == old(users)[uid := WithRoom(old(users)[uid], room, status, now)]
      ensures LeaseInvariant(old(users), old(holder)) ==> LeaseInvariant(users, holder)
    {
      thrown := Rethrow(FailureCause(uid, fault, uid !in users));
      if thrown.Some? {
        return;
      }
      if LeaseInvariant(users, holder) {
        RoomUpdatePreservesLease(users, holder, uid, room, status, now);
      }
      users := users[uid := WithRoom(users[uid], room, status, now)];
    }

    /** `updateUserKeyStatus`: the key transaction, committed as one atomic step. */
    method UpdateUserKeyStatus(uid: string, hasKey: bool, now: int, fault: Option<Thrown>)
      returns (thrown: Option<AppError>)
      modifies this
      ensures logs == old(logs)
      ensures var t := KeyTransaction(KeyState(old(users), old(holder)), uid, hasKey, now);
              thrown == Rethrow(FailureCause(uid, fault, t.None?)) &&
              (thrown.None? ==> KeyState(users, holder) == t.value) &&
              (thrown.Some? ==> users == old(users) && holder == old(holder))
      ensures LeaseInvariant(old(users), old(holder)) ==> LeaseInvariant(users, holder)
    {
      var t := KeyTransaction(KeyState(users, holder), uid, hasKey, now);
      thrown := Rethrow(FailureCause(uid, fault, t.None?));
      if thrown.Some? {
        return;
      }
      if LeaseInvariant(users, holder) {
        if hasKey {
          AcquirePreservesLease(KeyState(users, holder), uid, now);
        } else {
          ReleasePreservesLease(KeyState(users, holder), uid, now);
        }
      }
      users, holder := t.value.users, t.value.holder;
    }

    /** `addLog`: appends the entry stamped with the server time. */
    method AddLog(log: AttendanceLog, now: int, fault: Option<Thrown>) returns (thrown: Option<AppError>)
      modifies this
      ensures users == old(users) && holder == old(holder)
      ensures thrown == Rethrow(fault)
      ensures thrown.Some? ==> logs == old(logs)
      ensures thrown.None? ==> logs == old(logs) + [LogDoc(log.userId, log.userName, log.action, log.room, now)]
    {
      thrown := Rethrow(fault);
      if thrown.Some? {
        return;
      }
      logs := logs + [LogDoc(log.userId, log.userName, log.action, log.room, now)];
    }
  }
}
