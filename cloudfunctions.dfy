/** The Cloud Functions entry points (functions/src/index.ts): the two Slack message
    formatters, what the `logs` creation trigger and the `users` update trigger
    decide to send, and the development-only `resetData` endpoint. Sending to Slack,
    the clock and the Japanese date formatting are outside the model: the formatted
    time is a parameter and the message to send is the result. */
module CloudFunctions {
  import opened Wrappers
  import opened Text
  import opened AppTypes
  import opened ErrorHandler
  import opened Firestore
  import opened OAuthHelpers

  // ---------------------------------------------------------------------------
  // Formatters

  /** The particle after the room: "に" for entering, "から" for anything else. */
  function Preposition(action: string): (p: string)
    ensures p == "に" <==> action == Enter
    ensures p != "に" ==> p == "から"
  {
    if action == Enter then "に" else "から"
  }

  /** The first line of an attendance message, up to and including its line break. */
  function AttendanceHead(userName: string, action: string, room: string): string {
    "*" + userName + "* さんが *" + room + "* " + Preposition(action) + " *" + action + "* しました\n"
  }

  /** `formatAttendanceMessage(userName, action, room, timestamp)`. */
  function FormatAttendanceMessage(userName: string, action: string, room: string, timestamp: string): (m: string)
    ensures IsPrefix(AttendanceHead(userName, action, room), m)
    ensures IsSuffix("時刻: " + timestamp, m)
    ensures |m| == |AttendanceHead(userName, action, room)| + |"時刻: "| + |timestamp|
  {
    var head := AttendanceHead(userName, action, room);
    var tail := "時刻: " + timestamp;
    assert (head + tail)[..|head|] == head;
    assert (head + tail)[|head + tail| - |tail|..] == tail;
    head + tail
  }

  /** The first line of a key message. */
  function KeyHead(userName: string, action: string): string {
    "*" + userName + "* さんが *" + action + "* しました\n"
  }

  const KeyReturnedLine := "鍵は詰所に戻りました\n"

  /** `keyHolderName && ...`: an absent or empty name is falsy. */
  predicate NamePresent(name: Option<string>) {
    name.Some? && name.value != ""
  }

  /** The optional middle line: the current holder after a pick-up with a known
      holder name, the return note after a return, nothing otherwise. */
  function KeyExtraLine(action: string, keyHolderName: Option<string>): (line: string)
    ensures NamePresent(keyHolderName) && action == TakeKey ==> line == "現在の鍵保持者: *" + keyHolderName.value + "*\n"
    ensures action == ReturnKey <==> line == KeyReturnedLine
    ensures !(NamePresent(keyHolderName) && action == TakeKey) && action != ReturnKey ==> line == ""
  {
    if NamePresent(keyHolderName) && action == TakeKey then
      var line := "現在の鍵保持者: *" + keyHolderName.value + "*\n";
      assert line[..|"現在の鍵保持者: *"|] == "現在の鍵保持者: *";
      assert KeyReturnedLine[..|"現在の鍵保持者: *"|] != "現在の鍵保持者: *" by {
        assert KeyReturnedLine[0] == '鍵';
      }
      line
    else if action == ReturnKey then KeyReturnedLine
    else ""
  }

  /** `formatKeyMessage(userName, action, timestamp, keyHolderName?)`. */
  function FormatKeyMessage(userName: string, action: string, timestamp: string, keyHolderName: Option<string>): (m: string)
    ensures IsPrefix(KeyHead(userName, action), m)
    ensures IsSuffix("時刻: " + timestamp, m)
    ensures |m| == |KeyHead(userName, action)| + |KeyExtraLine(action, keyHolderName)| + |"時刻: "| + |timestamp|
    ensures m[|KeyHead(userName, action)|..|KeyHead(userName, action)| + |KeyExtraLine(action, keyHolderName)|]
              == KeyExtraLine(action, keyHolderName)
  {
    var head := KeyHead(userName, action) + KeyExtraLine(action, keyHolderName);
    var tail := "時刻: " + timestamp;
    assert (head + tail)[..|KeyHead(userName, action)|] == KeyHead(userName, action);
    assert (head + tail)[|KeyHead(userName, action)|..|head|] == KeyExtraLine(action, keyHolderName);
    assert (head + tail)[|head + tail| - |tail|..] == tail;
    head + tail
  }

  // ---------------------------------------------------------------------------
  // Triggers

  /** The fields of a new `logs` document the trigger reads. */
  datatype LogData = LogData(userName: string, action: string, room: string)

  /** What `onLogCreate` sends for a new log document. `logData` is `None` for an
      empty snapshot; `formattedTime` is the entry's time, or the current time when
      it has none; `keyHolderQuery` is what the `hasKey == true` query returns, `None`
      when it throws, and is consulted only for a pick-up. A throw ends in the
      trigger's `catch`, which sends nothing. `None` means nothing is sent. */
  function OnLogCreate(logData: Option<LogData>, formattedTime: string, keyHolderQuery: Option<seq<string>>): (message: Option<string>)
    ensures message.None? <==> logData.None? || (logData.value.action == TakeKey && keyHolderQuery.None?)
    ensures logData.Some? && logData.value.action in {TakeKey, ReturnKey} && message.Some? ==>
              var names := keyHolderQuery.GetOr([]);
              var holder := if logData.value.action == TakeKey && |names| > 0 then Some(names[0]) else None;
              message == Some(FormatKeyMessage(logData.value.userName, logData.value.action, formattedTime, holder))
    ensures logData.Some? && logData.value.action !in {TakeKey, ReturnKey} ==>
              message == Some(FormatAttendanceMessage(logData.value.userName, logData.value.action, logData.value.room, formattedTime))
  {
    match logData
    case None => None
    case Some(LogData(userName, action, room)) =>
      if action == TakeKey then
        match keyHolderQuery
        case None => None
        case Some(names) =>
          var holder := if |names| > 0 then Some(names[0]) else None;
          Some(FormatKeyMessage(userName, action, formattedTime, holder))
      else if action == ReturnKey then
        Some(FormatKeyMessage(userName, action, formattedTime, None))
      else
        Some(FormatAttendanceMessage(userName, action, room, formattedTime))
  }

  /** What `onUserKeyStatusChange` sends when `users/{uid}` changes from `before` to `after`. */
  function OnUserKeyStatusChange(before: UserDoc, after: UserDoc, formattedTime: string): (message: Option<string>)
    ensures message.Some? <==> before.hasKey != after.hasKey
  {
    if before.hasKey != after.hasKey then
      var action := if after.hasKey then TakeKey else ReturnKey;
      var holder := if after.hasKey then Some(after.name) else None;
      Some(FormatKeyMessage(after.name, action, formattedTime, holder))
    else None
  }

  /** A change of the key flag is announced as a pick-up exactly when the flag is now
      set, and the holder line names the user only then. */
  lemma KeyChangeAnnouncement(before: UserDoc, after: UserDoc, formattedTime: string)
    requires before.hasKey != after.hasKey
    ensures var m := OnUserKeyStatusChange(before, after, formattedTime).value;
            (after.hasKey ==> m == FormatKeyMessage(after.name, TakeKey, formattedTime, Some(after.name))) &&
            (!after.hasKey ==> m == FormatKeyMessage(after.name, ReturnKey, formattedTime, None)) &&
            IsPrefix(KeyHead(after.name, if after.hasKey then TakeKey else ReturnKey), m)
  {
  }

  /** A consequence of the login write as written: a key holder who logs in again
      triggers a key-return announcement although nobody returned the key. */
  lemma HolderLoginAnnouncesReturn(prior: UserDoc, user: Identity, token: string, now: int, formattedTime: string)
    requires prior.hasKey
    ensures OnUserKeyStatusChange(prior, LoginDoc(user, token, now), formattedTime)
            == Some(FormatKeyMessage(user.name, ReturnKey, formattedTime, None))
  {
  }

  /** With presence kept, a login changes no key flag and announces nothing. */
  lemma PresenceKeepingLoginAnnouncesNothing(users: Users, user: Identity, token: string, now: int, formattedTime: string)
    requires user.uid in users
    ensures OnUserKeyStatusChange(users[user.uid], PresenceKeepingLoginDoc(users, user, token, now), formattedTime).None?
  {
  }

  // ---------------------------------------------------------------------------
  // resetData

  /** The HTTP answers of `resetData`. */
  datatype ResetResponse =
    | Forbidden            // 403 {error: "Not allowed in production"}
    | ResetDone            // 200 {success: true, message: "Data reset successfully"}
    | ResetFailed(error: Thrown)   // 500 {success: false, error: String(error)}

  function StatusCode(r: ResetResponse): int {
    match r
    case Forbidden => 403
    case ResetDone => 200
    case ResetFailed(_) => 500
  }

  const ResetNotice := "データがリセットされました"

  /** `resetData` as written: outside production it deletes every user document and
      every log, announces the reset, and leaves `keys/main` in place. */
  method ResetData(store: Store, nodeEnv: string, fault: Option<Thrown>)
    returns (response: ResetResponse, notice: Option<string>)
    modifies store
    ensures nodeEnv == "production" ==> response == Forbidden && notice.None?
    ensures nodeEnv == "production" || fault.Some? ==>
              store.users == old(store.users) && store.logs == old(store.logs)
    ensures nodeEnv != "production" && fault.Some? ==> response == ResetFailed(fault.value) && notice.None?
    ensures nodeEnv != "production" && fault.None? ==>
              response == ResetDone && notice == Some(ResetNotice) && store.users == map[] && store.logs == []
    ensures store.holder == old(store.holder)
    ensures StatusCode(response) == 403 <==> nodeEnv == "production"
  {
    if nodeEnv == "production" {
      return Forbidden, None;
    }
    if fault.Some? {
      return ResetFailed(fault.value), None;
    }
    store.users := map[];
    store.logs := [];
    response, notice := ResetDone, Some(ResetNotice);
  }

  /** As written, after a reset that left `h` as the lease holder, every pick-up by a
      registered user other than `h` aborts until `h` registers again: the
      transaction tries to clear the flag on `h`'s deleted document. */
  lemma StaleHolderBlocksAcquire(users: Users, h: string, uid: string, now: int)
    requires h != "" && h != uid && h !in users
    ensures AcquireKey(KeyState(users, Some(h)), uid, now).None?
  {
  }

  /** A concrete run: `slack_A` held the key, the data was reset, `slack_B` registered
      again and cannot pick up the key. */
  lemma StaleHolderExample()
    ensures var b := UserDoc("slack_B", "B", "", "", "slack", None, None, false, false, false, 0, 0, None);
            AcquireKey(KeyState(map["slack_B" := b], Some("slack_A")), "slack_B", 1).None?
  {
    var b := UserDoc("slack_B", "B", "", "", "slack", None, None, false, false, false, 0, 0, None);
    StaleHolderBlocksAcquire(map["slack_B" := b], "slack_A", "slack_B", 1);
  }

  /** `resetData` clearing the lease as well. */
  method ResetDataClearingLease(store: Store, nodeEnv: string, fault: Option<Thrown>)
    returns (response: ResetResponse, notice: Option<string>)
    modifies store
    ensures nodeEnv == "production" ==> response == Forbidden && notice.None?
    ensures nodeEnv == "production" || fault.Some? ==>
              store.users == old(store.users) && store.logs == old(store.logs) && store.holder == old(store.holder)
    ensures nodeEnv != "production" && fault.Some? ==> response == ResetFailed(fault.value) && notice.None?
    ensures nodeEnv != "production" && fault.None? ==>
              response == ResetDone && notice == Some(ResetNotice) &&
              store.users == map[] && store.logs == [] && store.holder == None
    ensures response == ResetDone ==> LeaseInvariant(store.users, store.holder)
  {
    if nodeEnv == "production" {
      return Forbidden, None;
    }
    if fault.Some? {
      return ResetFailed(fault.value), None;
    }
    store.users := map[];
    store.logs := [];
    store.holder := None;
    response, notice := ResetDone, Some(ResetNotice);
  }

  /** After a reset that clears the lease, users who register again without the key
      can pick it up: the lease invariant holds, so a pick-up succeeds for every
      registered user. */
  lemma AcquireAfterClearingReset(users: Users, uid: string, now: int)
    requires "" !in users && forall u :: u in users ==> !users[u].hasKey
    requires uid in users
    ensures LeaseInvariant(users, None)
    ensures AcquireKey(KeyState(users, None), uid, now).Some?
  {
    AcquirePreservesLease(KeyState(users, None), uid, now);
  }
}
