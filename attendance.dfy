/** The attendance hook (src/hooks/useAttendance.ts): the room and key toggles
    compute the new flag from the client's snapshot of the users, update the store,
    and write the log entry only once the update has succeeded. `loading` and `error`
    are the hook's state; the store calls are the Firestore operations of
    `Firestore.Store`, with their faults as parameters. */
module Attendance {
  import opened Wrappers
  import opened AppTypes
  import opened ErrorHandler
  import opened Firestore

  /** `users.find(u => u.uid === uid)`. */
  function FindUser(users: seq<UserDoc>, uid: string): (r: Option<UserDoc>)
    ensures r.Some? ==> r.value.uid == uid &&
                        exists i :: 0 <= i < |users| && users[i] == r.value &&
                                    forall j :: 0 <= j < i ==> users[j].uid != uid
    ensures r.None? <==> forall i :: 0 <= i < |users| ==> users[i].uid != uid
  {
    if |users| == 0 then None
    else if users[0].uid == uid then Some(users[0])
    else
      var r := FindUser(users[1..], uid);
      if r.Some? then
        var i :| 0 <= i < |users[1..]| && users[1..][i] == r.value &&
                 forall j :: 0 <= j < i ==> users[1..][j].uid != uid;
        assert users[i + 1] == r.value;
        assert forall j :: 0 <= j < i + 1 ==> users[j].uid != uid by {
          forall j | 0 <= j < i + 1 ensures users[j].uid != uid {
            if j > 0 {
              assert users[j] == users[1..][j - 1];
            }
          }
        }
        r
      else
        assert forall i :: 1 <= i < |users| ==> users[i] == users[1..][i - 1];
        None
  }

  /** `!currentUserData?.[roomType]`: a user missing from the snapshot is entering. */
  function EntersRoom(users: seq<UserDoc>, uid: string, room: RoomType): (entering: bool)
    ensures FindUser(users, uid).None? ==> entering
    ensures FindUser(users, uid).Some? ==> entering == !RoomFlag(FindUser(users, uid).value, room)
  {
    var current := FindUser(users, uid);
    !(current.Some? && RoomFlag(current.value, room))
  }

  /** `!currentUserData?.hasKey`: a user missing from the snapshot is taking the key. */
  function TakesKey(users: seq<UserDoc>, uid: string): (taking: bool)
    ensures FindUser(users, uid).None? ==> taking
    ensures FindUser(users, uid).Some? ==> taking == !FindUser(users, uid).value.hasKey
  {
    var current := FindUser(users, uid);
    !(current.Some? && current.value.hasKey)
  }

  const Room2218Label := "A2218室"
  const GradRoomLabel := "院生室"

  /** The log entry of a room toggle. */
  function RoomLog(user: Identity, room: RoomType, entering: bool): (log: AttendanceLog)
    ensures log.userId == user.uid && log.userName == user.name
    ensures log.action == Enter <==> entering
    ensures log.action == Leave <==> !entering
    ensures log.room == Room2218Label <==> room == Room2218
    ensures log.room == GradRoomLabel <==> room == GradRoom
  {
    assert Enter[0] != Leave[0];
    assert Room2218Label[0] != GradRoomLabel[0];
    AttendanceLog(user.uid, user.name, if entering then Enter else Leave,
                  if room == Room2218 then Room2218Label else GradRoomLabel)
  }

  /** The log entry of a key toggle: always in room A2218. */
  function KeyLog(user: Identity, taking: bool): (log: AttendanceLog)
    ensures log.userId == user.uid && log.userName == user.name
    ensures log.action == TakeKey <==> taking
    ensures log.action == ReturnKey <==> !taking
    ensures log.room == Room2218Label
  {
    assert TakeKey[1] != ReturnKey[1];
    AttendanceLog(user.uid, user.name, if taking then TakeKey else ReturnKey, Room2218Label)
  }

  /** When the snapshot agrees with the store, a successful room toggle flips the
      stored flag of that room. */
  lemma RoomToggleFlips(users: seq<UserDoc>, stored: Users, uid: string, room: RoomType, now: int)
    requires uid in stored && FindUser(users, uid) == Some(stored[uid])
    ensures RoomFlag(WithRoom(stored[uid], room, EntersRoom(users, uid, room), now), room) == !RoomFlag(stored[uid], room)
  {
  }

  /** When the snapshot agrees with the store and the lease invariant holds, a
      successful key toggle flips the caller's key flag. */
  lemma KeyToggleFlips(users: seq<UserDoc>, stored: Users, holder: Option<string>, uid: string, now: int)
    requires LeaseInvariant(stored, holder)
    requires uid in stored && FindUser(users, uid) == Some(stored[uid])
    ensures KeyTransaction(KeyState(stored, holder), uid, TakesKey(users, uid), now).Some?
    ensures KeyTransaction(KeyState(stored, holder), uid, TakesKey(users, uid), now).value.users[uid].hasKey == !stored[uid].hasKey
  {
    var s := KeyState(stored, holder);
    if TakesKey(users, uid) {
      AcquirePreservesLease(s, uid, now);
      AcquireEffect(s, uid, now);
    } else {
      ReleaseEffect(s, uid, now);
    }
  }

  /** The hook's state. */
  class AttendanceHook {
    var loading: bool
    var error: Option<string>

    constructor()
      ensures !loading && error.None?
    {
      loading := false;
      error := None;
    }

    /** `handleRoomToggle(roomType)`. */
    method HandleRoomToggle(store: Store, currentUser: Option<Identity>, users: seq<UserDoc>, room: RoomType,
                            now: int, updateFault: Option<Thrown>, logFault: Option<Thrown>)
      modifies this, store
      ensures currentUser.None? ==>
                loading == old(loading) && error == old(error) &&
                store.users == old(store.users) && store.holder == old(store.holder) && store.logs == old(store.logs)
      ensures currentUser.Some? ==> !loading
      ensures currentUser.Some? ==>
                var user := currentUser.value;
                var entering := EntersRoom(users, user.uid, room);
                var updateFailure := Rethrow(FailureCause(user.uid, updateFault, user.uid !in old(store.users)));
                store.holder == old(store.holder) &&
                (updateFailure.Some? ==>
                   error == Some(updateFailure.value.message) &&
                   store.users == old(store.users) && store.logs == old(store.logs)) &&
                (updateFailure.None? ==>
                   store.users == old(store.users)[user.uid := WithRoom(old(store.users)[user.uid], room, entering, now)] &&
                   (logFault.Some? ==>
                      error == Some(HandleFirestoreError(logFault.value).message) && store.logs == old(store.logs)) &&
                   (logFault.None? ==>
                      error.None? && store.logs == old(store.logs) + [LogDoc(user.uid, user.name, RoomLog(user, room, entering).action,
                                                                            RoomLog(user, room, entering).room, now)]))
      ensures LeaseInvariant(old(store.users), old(store.holder)) ==> LeaseInvariant(store.users, store.holder)
    {
      if currentUser.None? {
        return;
      }
      loading := true;
      error := None;
      var user := currentUser.value;
      var entering := EntersRoom(users, user.uid, room);
      var thrown := store.UpdateUserRoomStatus(user.uid, room, entering, now, updateFault);
      if thrown.None? {
        var log := RoomLog(user, room, entering);
        thrown := store.AddLog(log, now, logFault);
      }
      if thrown.Some? {
        error := Some(thrown.value.message);
      }
      loading := false;
    }

    /** `handleKeyToggle()`. */
    method HandleKeyToggle(store: Store, currentUser: Option<Identity>, users: seq<UserDoc>,
                           now: int, updateFault: Option<Thrown>, logFault: Option<Thrown>)
      modifies this, store
      ensures currentUser.None? ==>
                loading == old(loading) && error == old(error) &&
                store.users == old(store.users) && store.holder == old(store.holder) && store.logs == old(store.logs)
      ensures currentUser.Some? ==> !loading
      ensures currentUser.Some? ==>
                var user := currentUser.value;
                var taking := TakesKey(users, user.uid);
                var t := KeyTransaction(KeyState(old(store.users), old(store.holder)), user.uid, taking, now);
                var updateFailure := Rethrow(FailureCause(user.uid, updateFault, t.None?));
                (updateFailure.Some? ==>
                   error == Some(updateFailure.value.message) &&
                   store.users == old(store.users) && store.holder == old(store.holder) && store.logs == old(store.logs)) &&
                (updateFailure.None? ==>
                   KeyState(store.users, store.holder) == t.value &&
                   (logFault.Some? ==>
                      error == Some(HandleFirestoreError(logFault.value).message) && store.logs == old(store.logs)) &&
                   (logFault.None? ==>
                      error.None? && store.logs == old(store.logs) + [LogDoc(user.uid, user.name, KeyLog(user, taking).action,
                                                                            Room2218Label, now)]))
      ensures LeaseInvariant(old(store.users), old(store.holder)) ==> LeaseInvariant(store.users, store.holder)
    {
      if currentUser.None? {
        return;
      }
      loading := true;
      error := None;
      var user := currentUser.value;
      var taking := TakesKey(users, user.uid);
      var thrown := store.UpdateUserKeyStatus(user.uid, taking, now, updateFault);
      if thrown.None? {
        var log := KeyLog(user, taking);
        thrown := store.AddLog(log, now, logFault);
      }
      if thrown.Some? {
        error := Some(thrown.value.message);
      }
      loading := false;
    }
  }
}
