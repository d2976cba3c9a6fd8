/** The demo realtime server (server.js): the in-memory `sharedData` with its `users`
    array and newest-first `logs` list, the `user-register`, `room-update` and
    `key-update` socket handlers, and `/api/reset`. Broadcasting to the sockets and
    the Slack request are outside the model; a handler returns the Slack message it
    would send. Users and log entries are the plain objects the clients send. */
module DemoServer {
  import opened Wrappers
  import opened JsValues
  import opened Text
  import SlackUtils

  /** `u.id`. */
  function IdOf(u: Object): Option<JsValue> {
    Get(u, "id")
  }

  /** `users.findIndex(u => u.id === id)`: the first position holding `id`, or -1. */
  function IndexOf(users: seq<Object>, id: Option<JsValue>): (i: int)
    ensures -1 <= i < |users|
    ensures 0 <= i ==> IdOf(users[i]) == id && forall j :: 0 <= j < i ==> IdOf(users[j]) != id
    ensures i == -1 ==> forall j :: 0 <= j < |users| ==> IdOf(users[j]) != id
  {
    if |users| == 0 then -1
    else if IdOf(users[0]) == id then 0
    else
      var k := IndexOf(users[1..], id);
      if k == -1 then -1 else k + 1
  }

  /** The first position holding `id` is what `IndexOf` finds. */
  lemma IndexOfIs(users: seq<Object>, id: Option<JsValue>, i: int)
    requires 0 <= i < |users| && IdOf(users[i]) == id
    requires forall j :: 0 <= j < i ==> IdOf(users[j]) != id
    ensures IndexOf(users, id) == i
  {
  }

  /** No two users share an id. */
  predicate UniqueIds(users: seq<Object>) {
    forall i, j :: 0 <= i < j < |users| ==> IdOf(users[i]) != IdOf(users[j])
  }

  /** The ids present. */
  function Ids(users: seq<Object>): set<Option<JsValue>> {
    set i | 0 <= i < |users| :: IdOf(users[i])
  }

  /** The users after `user-register` with `u`: the first user with `u`'s id is
      replaced by `u` wholesale, or `u` is appended. */
  function Registered(users: seq<Object>, u: Object): (r: seq<Object>)
    ensures Ids(r) == Ids(users) + {IdOf(u)}
    ensures |r| == if IdOf(u) in Ids(users) then |users| else |users| + 1
    ensures 0 <= IndexOf(r, IdOf(u)) && r[IndexOf(r, IdOf(u))] == u
    ensures forall j :: 0 <= j < |users| && IdOf(users[j]) != IdOf(u) ==> r[j] == users[j]
  {
    var i := IndexOf(users, IdOf(u));
    if i >= 0 then
      var r := users[i := u];
      assert IdOf(users[i]) == IdOf(u);
      assert Ids(r) == Ids(users) by {
        forall x | x in Ids(users) ensures x in Ids(r) {
          var j :| 0 <= j < |users| && IdOf(users[j]) == x;
          assert IdOf(r[j]) == x;
        }
      }
      IndexOfIs(r, IdOf(u), i);
      r
    else
      var r := users + [u];
      assert IdOf(r[|users|]) == IdOf(u);
      assert Ids(r) == Ids(users) + {IdOf(u)} by {
        forall x | x in Ids(users) ensures x in Ids(r) {
          var j :| 0 <= j < |users| && IdOf(users[j]) == x;
          assert IdOf(r[j]) == x;
        }
      }
      r
  }

  /** Registering keeps ids unique. */
  lemma RegisterPreservesUniqueIds(users: seq<Object>, u: Object)
    requires UniqueIds(users)
    ensures UniqueIds(Registered(users, u))
  {
    var r := Registered(users, u);
    var i := IndexOf(users, IdOf(u));
    forall a, b | 0 <= a < b < |r|
      ensures IdOf(r[a]) != IdOf(r[b])
    {
      if i >= 0 {
        assert r == users[i := u];
      } else {
        assert r == users + [u];
      }
    }
  }

  /** Registering the same record twice is registering it once. */
  lemma RegisterIdempotent(users: seq<Object>, u: Object)
    ensures Registered(Registered(users, u), u) == Registered(users, u)
  {
    var r := Registered(users, u);
    assert r[IndexOf(r, IdOf(u))] == u;
    assert r[IndexOf(r, IdOf(u)) := u] == r;
  }

  /** The users after `room-update`: the first user with the id is shallow-merged with
      `userData`; nobody else changes. */
  function Merged(users: seq<Object>, id: Option<JsValue>, userData: Object): (r: seq<Object>)
    ensures |r| == |users|
    ensures forall j :: 0 <= j < |users| && j != IndexOf(users, id) ==> r[j] == users[j]
    ensures IndexOf(users, id) >= 0 ==>
              var u := r[IndexOf(users, id)];
              u.Keys == users[IndexOf(users, id)].Keys + userData.Keys &&
              (forall k :: k in userData ==> u[k] == userData[k]) &&
              (forall k :: k in users[IndexOf(users, id)] && k !in userData ==> u[k] == users[IndexOf(users, id)][k])
  {
    var i := IndexOf(users, id);
    if i >= 0 then users[i := Spread(users[i], userData)] else users
  }

  /** A merge that does not carry an `id` keeps ids, and so keeps them unique. */
  lemma MergePreservesUniqueIds(users: seq<Object>, id: Option<JsValue>, userData: Object)
    requires UniqueIds(users) && "id" !in userData
    ensures UniqueIds(Merged(users, id, userData))
  {
    var r := Merged(users, id, userData);
    forall j | 0 <= j < |r| ensures IdOf(r[j]) == IdOf(users[j]) {
    }
  }

  /** `u.hasKey = false`. */
  function ClearKey(u: Object): Object {
    u["hasKey" := JsBool(false)]
  }

  /** `u.hasKey = value`, where an undefined value leaves the property undefined. */
  function SetKey(u: Object, value: Option<JsValue>): Object {
    if value.Some? then u["hasKey" := value.value] else u - {"hasKey"}
  }

  /** Every user after `forEach(u => u.hasKey = false)`. */
  function Cleared(users: seq<Object>): (r: seq<Object>)
    ensures |r| == |users|
    ensures forall j :: 0 <= j < |r| ==> Get(r[j], "hasKey") == Some(JsBool(false)) && !HoldsKey(r[j])
    ensures forall j, k :: 0 <= j < |r| && k != "hasKey" ==> Get(r[j], k) == Get(users[j], k)
  {
    seq(|users|, j requires 0 <= j < |users| => ClearKey(users[j]))
  }

  /** The users after `key-update`: for a known id every key flag is cleared and the
      target's is set to `hasKey`; an unknown id changes nothing. */
  function KeyAssigned(users: seq<Object>, id: Option<JsValue>, hasKey: Option<JsValue>): (r: seq<Object>)
    ensures |r| == |users|
    ensures IndexOf(users, id) < 0 ==> r == users
    ensures IndexOf(users, id) >= 0 ==>
              Get(r[IndexOf(users, id)], "hasKey") == hasKey &&
              forall j :: 0 <= j < |r| && j != IndexOf(users, id) ==> Get(r[j], "hasKey") == Some(JsBool(false))
    ensures forall j, k :: 0 <= j < |r| && k != "hasKey" ==> Get(r[j], k) == Get(users[j], k)
  {
    var i := IndexOf(users, id);
    if i >= 0 then Cleared(users)[i := SetKey(ClearKey(users[i]), hasKey)] else users
  }

  /** `u.hasKey` is truthy. */
  predicate HoldsKey(u: Object) {
    Truthy(Get(u, "hasKey"))
  }

  /** `users.find(u => u.hasKey)`, as a position. */
  function FirstHolder(users: seq<Object>): (r: Option<nat>)
    ensures r.Some? ==> r.value < |users| && HoldsKey(users[r.value]) &&
                        forall j :: 0 <= j < r.value ==> !HoldsKey(users[j])
    ensures r.None? ==> forall j :: 0 <= j < |users| ==> !HoldsKey(users[j])
  {
    if |users| == 0 then None
    else if HoldsKey(users[0]) then Some(0)
    else
      match FirstHolder(users[1..])
      case None => None
      case Some(k) => Some(k + 1)
  }

  /** After `key-update` for a known user at most that user holds the key, and nobody
      does when the new flag is falsy; the first holder is then that user. */
  lemma KeyUpdateLeavesOneHolder(users: seq<Object>, id: Option<JsValue>, hasKey: Option<JsValue>)
    requires IndexOf(users, id) >= 0
    ensures var r := KeyAssigned(users, id, hasKey);
            (forall j :: 0 <= j < |r| && HoldsKey(r[j]) ==> j == IndexOf(users, id)) &&
            (Truthy(hasKey) <==> FirstHolder(r) == Some(IndexOf(users, id) as nat)) &&
            (!Truthy(hasKey) ==> FirstHolder(r).None?)
  {
    var r := KeyAssigned(users, id, hasKey);
    var i := IndexOf(users, id);
    assert forall j :: 0 <= j < |r| && j != i ==> !HoldsKey(r[j]);
    if Truthy(hasKey) {
      assert HoldsKey(r[i]);
    }
  }

  /** Keeping the newest 50 of the log with `entry` put first: `unshift` then
      `slice(0, 50)`. */
  function Prepended(logs: seq<JsValue>, entry: JsValue): (r: seq<JsValue>)
    ensures |r| == if |logs| < 50 then |logs| + 1 else 50
    ensures r[0] == entry
    ensures forall j :: 1 <= j < |r| ==> r[j] == logs[j - 1]
  {
    var all := [entry] + logs;
    all[..if |all| < 50 then |all| else 50]
  }

  /** The log after an update carrying `logEntry`: unchanged unless it is truthy. */
  function Logged(logs: seq<JsValue>, logEntry: Option<JsValue>): (r: seq<JsValue>)
    ensures |logs| <= 50 ==> |r| <= 50
    ensures !Truthy(logEntry) ==> r == logs
    ensures Truthy(logEntry) ==> |r| == (if |logs| < 50 then |logs| + 1 else 50)
    ensures Truthy(logEntry) ==> 1 <= |r| <= |logs| + 1 && r[0] == logEntry.value && r[1..] == logs[..|r| - 1]
  {
    if Truthy(logEntry) then
      var r := Prepended(logs, logEntry.value);
      assert r[1..] == logs[..|r| - 1];
      r
    else logs
  }

  /** `logEntry && sendToSlack !== false`: only a literal `false` silences an
      update that carries a log entry; a missing, `null`, `0` or `''` flag does not. */
  predicate ShouldNotify(logEntry: Option<JsValue>, sendToSlack: Option<JsValue>)
    ensures ShouldNotify(logEntry, sendToSlack) ==> Truthy(logEntry)
    ensures Truthy(logEntry) && !Truthy(sendToSlack) && sendToSlack != Some(JsBool(false)) ==>
              ShouldNotify(logEntry, sendToSlack)
    ensures sendToSlack == Some(JsBool(false)) ==> !ShouldNotify(logEntry, sendToSlack)
  {
    Truthy(logEntry) && sendToSlack != Some(JsBool(false))
  }

  /** `sharedData.users[index] || {}`: an unknown user is an empty object, which
      has no provider to show. */
  function UserAt(users: seq<Object>, index: int): (u: Object)
    ensures 0 <= index < |users| ==> u == users[index]
    ensures !(0 <= index < |users|) ==> Get(u, "provider").None? && !HoldsKey(u)
  {
    if 0 <= index < |users| then users[index] else map[]
  }

  /** The log entry's fields as the formatter interpolates them. */
  function EntryOf(entry: JsValue): SlackUtils.LogEntry {
    SlackUtils.LogEntry(
      Render(Step(Some(entry), "userName")), Render(Step(Some(entry), "action")),
      Render(Step(Some(entry), "room")), Render(Step(Some(entry), "timestamp")))
  }

  /** `user.provider`, shown by the formatter when truthy and not `'manual'`. */
  function ProviderOf(u: Object): (p: Option<string>)
    ensures SlackUtils.ShowsProvider(p) <==> HoldsProvider(u)
  {
    var v := Get(u, "provider");
    RenderManual(v);
    if Truthy(v) then Some(Render(v)) else None
  }

  /** Only the string `'manual'` renders as `manual`. */
  lemma RenderManual(v: Option<JsValue>)
    ensures Render(v) == "manual" <==> v == Some(JsString("manual"))
  {
    if v.Some? && v.value.JsNumber? {
      var r := Render(v);
      assert IsDigitChar(r[0]) || r[0] == '-';
      assert "manual"[0] == 'm';
    }
  }

  predicate HoldsProvider(u: Object) {
    Truthy(Get(u, "provider")) && Get(u, "provider") != Some(JsString("manual"))
  }

  /** `keyHolder?.name` as the key location the formatter reads: a falsy name falls
      back to `''`. */
  function KeyLocation(users: seq<Object>): (r: string)
    ensures forall i :: 0 <= i < |users| && HoldsKey(users[i]) && (forall j :: 0 <= j < i ==> !HoldsKey(users[j])) ==>
              (Truthy(Get(users[i], "name")) ==> r == Render(Get(users[i], "name"))) &&
              (!Truthy(Get(users[i], "name")) ==> r == "")
    ensures (forall j :: 0 <= j < |users| ==> !HoldsKey(users[j])) ==> r == ""
  {
    match FirstHolder(users)
    case None => ""
    case Some(i) => var name := Get(users[i], "name"); if Truthy(name) then Render(name) else ""
  }

  /** The demo server's shared state. */
  class SharedData {
    var users: seq<Object>
    var logs: seq<JsValue>

    constructor()
      ensures users == [] && logs == []
    {
      users := [];
      logs := [];
    }

    /** `sharedData.users.findIndex(u => u.id === id)`. */
    method FindIndex(id: Option<JsValue>) returns (index: int)
      ensures -1 <= index < |users|
      ensures 0 <= index ==> IdOf(users[index]) == id && forall j :: 0 <= j < index ==> IdOf(users[j]) != id
      ensures index == -1 ==> forall j :: 0 <= j < |users| ==> IdOf(users[j]) != id
      ensures index == IndexOf(users, id)
    {
      index := 0;
      while index < |users|
        invariant 0 <= index <= |users|
        invariant forall j :: 0 <= j < index ==> IdOf(users[j]) != id
      {
        if IdOf(users[index]) == id {
          return;
        }
        index := index + 1;
      }
      index := -1;
    }

    /** `logs.unshift(entry); logs = logs.slice(0, 50)`. */
    method AddLog(entry: JsValue)
      modifies this
      ensures logs == Prepended(old(logs), entry)
      ensures users == old(users)
    {
      logs := [entry] + logs;
      if |logs| > 50 {
        logs := logs[..50];
      }
    }

    /** The `user-register` handler. */
    method UserRegister(userData: Object)
      modifies this
      ensures users == Registered(old(users), userData)
      ensures UniqueIds(old(users)) ==> UniqueIds(users)
      ensures logs == old(logs)
    {
      var index := FindIndex(IdOf(userData));
      if index >= 0 {
        users := users[index := userData];
      } else {
        users := users + [userData];
      }
      if UniqueIds(old(users)) {
        RegisterPreservesUniqueIds(old(users), userData);
      }
    }

    /** The `room-update` handler; the result is the Slack message it sends. */
    method RoomUpdate(userId: Option<JsValue>, userData: Option<Object>, logEntry: Option<JsValue>, sendToSlack: Option<JsValue>)
      returns (message: Option<string>)
      modifies this
      ensures users == Merged(old(users), userId, userData.GetOr(map[]))
      ensures logs == Logged(old(logs), logEntry)
      ensures ShouldNotify(logEntry, sendToSlack) ==>
                message == Some(SlackUtils.FormatAttendanceMessage(EntryOf(logEntry.value), ProviderOf(UserAt(users, IndexOf(old(users), userId)))))
      ensures !ShouldNotify(logEntry, sendToSlack) ==> message.None?
    {
      var index := FindIndex(userId);
      if index >= 0 {
        users := users[index := Spread(users[index], userData.GetOr(map[]))];
      }
      if Truthy(logEntry) {
        AddLog(logEntry.value);
      }
      message := None;
      if ShouldNotify(logEntry, sendToSlack) {
        var user := UserAt(users, index);
        message := Some(SlackUtils.FormatAttendanceMessage(EntryOf(logEntry.value), ProviderOf(user)));
      }
    }

    /** The `key-update` handler; the result is the Slack message it sends. */
    method KeyUpdate(userId: Option<JsValue>, hasKey: Option<JsValue>, logEntry: Option<JsValue>, sendToSlack: Option<JsValue>)
      returns (message: Option<string>)
      modifies this
      ensures users == KeyAssigned(old(users), userId, hasKey)
      ensures logs == Logged(old(logs), logEntry)
      ensures ShouldNotify(logEntry, sendToSlack) ==>
                message == Some(SlackUtils.FormatKeyMessage(EntryOf(logEntry.value),
                                  ProviderOf(UserAt(users, IndexOf(old(users), userId))), KeyLocation(users)))
      ensures !ShouldNotify(logEntry, sendToSlack) ==> message.None?
    {
      var index := FindIndex(userId);
      if index >= 0 {
        var i := 0;
        while i < |users|
          invariant 0 <= i <= |users| == |old(users)|
          invariant forall j :: 0 <= j < i ==> users[j] == ClearKey(old(users)[j])
          invariant forall j :: i <= j < |users| ==> users[j] == old(users)[j]
          invariant logs == old(logs)
        {
          users := users[i := ClearKey(users[i])];
          i := i + 1;
        }
        assert users == Cleared(old(users));
        assert users[index] == ClearKey(old(users)[index]);
        users := users[index := SetKey(users[index], hasKey)];
      }
      if Truthy(logEntry) {
        AddLog(logEntry.value);
      }
      message := None;
      if ShouldNotify(logEntry, sendToSlack) {
        var user := UserAt(users, index);
        message := Some(SlackUtils.FormatKeyMessage(EntryOf(logEntry.value), ProviderOf(user), KeyLocation(users)));
      }
    }

    /** `/api/reset`. */
    method Reset()
      modifies this
      ensures users == [] && logs == []
    {
      users := [];
      logs := [];
    }
  }
}
