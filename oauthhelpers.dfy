/** The Slack OAuth helpers of the Cloud Functions (functions/src/oauthHelpers.ts):
    the mapping of a Slack profile to the app's identity, the custom-token fallback,
    the login write to `users/{uid}`, and the messages the success and error pages
    post to the opener window. */
module OAuthHelpers {
  import opened Wrappers
  import opened Text
  import opened AppTypes
  import opened ErrorHandler
  import opened Firestore

  /** The `profile` of a Slack `users.info` answer. A missing field reads as `""`,
      which `||` treats the same way. */
  datatype SlackProfile = SlackProfile(
    realName: string,
    displayName: string,
    email: string,
    image192: string,
    image72: string)

  datatype SlackUser = SlackUser(id: string, name: string, realName: string, profile: SlackProfile)

  const UnknownUserName := "Unknown User"

  /** `transformSlackUserToFirebase(slackUser, teamId)`. */
  function TransformSlackUserToFirebase(u: SlackUser, teamId: string): (r: Identity)
    ensures r.uid == "slack_" + u.id && r.provider == "slack"
    ensures r.slackUserId == Some(u.id) && r.slackTeamId == Some(teamId)
    ensures r.email == u.profile.email
    ensures r.name in {u.profile.displayName, u.profile.realName, u.name, UnknownUserName} && r.name != ""
    ensures r.avatar in {u.profile.image192, u.profile.image72, ""}
  {
    Identity(
      "slack_" + u.id,
      OrElse(u.profile.displayName, OrElse(u.profile.realName, OrElse(u.name, UnknownUserName))),
      OrElse(u.profile.email, ""),
      OrElse(u.profile.image192, OrElse(u.profile.image72, "")),
      "slack",
      Some(u.id),
      Some(teamId))
  }

  /** The display name wins whenever it is set; the real name is used only when the
      display name is empty, the account name only when both are, and the fixed
      fallback only when all three are. */
  lemma NameFallbackOrder(u: SlackUser, teamId: string)
    ensures var n := TransformSlackUserToFirebase(u, teamId).name;
            (u.profile.displayName != "" ==> n == u.profile.displayName) &&
            (u.profile.displayName == "" && u.profile.realName != "" ==> n == u.profile.realName) &&
            (u.profile.displayName == "" && u.profile.realName == "" && u.name != "" ==> n == u.name) &&
            (u.profile.displayName == "" && u.profile.realName == "" && u.name == "" ==> n == UnknownUserName)
  {
  }

  /** The 192-pixel image wins when set, then the 72-pixel one, else no avatar. */
  lemma AvatarFallbackOrder(u: SlackUser, teamId: string)
    ensures var a := TransformSlackUserToFirebase(u, teamId).avatar;
            (u.profile.image192 != "" ==> a == u.profile.image192) &&
            (u.profile.image192 == "" ==> a == u.profile.image72)
  {
  }

  /** Two Slack users get the same uid only when they have the same Slack id. */
  lemma UidDeterminesSlackId(u1: SlackUser, u2: SlackUser, team1: string, team2: string)
    requires TransformSlackUserToFirebase(u1, team1).uid == TransformSlackUserToFirebase(u2, team2).uid
    ensures u1.id == u2.id
  {
    var p := "slack_";
    assert (p + u1.id)[|p|..] == u1.id;
    assert (p + u2.id)[|p|..] == u2.id;
  }

  /** `generateFirebaseCustomToken(user)`: the token `createCustomToken` settles with,
      or `null` when it throws. */
  function GenerateFirebaseCustomToken(created: Settled<string>): (r: Option<string>)
    ensures r.None? <==> created.Rejected?
    ensures created.Fulfilled? ==> r == Some(created.value)
  {
    match created
    case Fulfilled(token) => Some(token)
    case Rejected(_) => None
  }

  // ---------------------------------------------------------------------------
  // The login write

  /** The fields `saveUserToFirestore` writes with `merge: true`. They cover every
      field of the modelled document, so the merge leaves none of the earlier values:
      the presence flags and the key flag come back `false` and the creation time is
      the time of this login. */
  function LoginDoc(user: Identity, encryptedToken: string, now: int): (d: UserDoc)
    ensures !d.room2218 && !d.gradRoom && !d.hasKey
    ensures d.createdAt == now && d.lastActivity == now
    ensures d.uid == user.uid && d.name == user.name && d.email == user.email && d.avatar == user.avatar
    ensures d.provider == user.provider && d.slackUserId == user.slackUserId && d.slackTeamId == user.slackTeamId
    ensures d.slackUserToken == Some(encryptedToken)
  {
    UserDoc(user.uid, user.name, user.email, user.avatar, user.provider, user.slackUserId, user.slackTeamId,
            false, false, false, now, now, Some(encryptedToken))
  }

  /** `saveUserToFirestore(user, userAccessToken, encryptSlackToken)` as written: a
      merge-write of the login document, with the lease document untouched. `encrypt`
      is total here: a throw from `encryptSlackToken` (such as `Invalid key length`),
      which happens while the written object is built and so before anything is
      written, is expressed through `fault`, whose effect is the same. */
  method SaveUserToFirestore(store: Store, user: Identity, userAccessToken: string, encrypt: string -> string,
                             now: int, fault: Option<Thrown>) returns (thrown: Option<Thrown>)
    modifies store
    ensures store.holder == old(store.holder) && store.logs == old(store.logs)
    ensures thrown == FailureCause(user.uid, fault, false)
    ensures thrown.Some? ==> store.users == old(store.users)
    ensures thrown.None? ==> store.users == old(store.users)[user.uid := LoginDoc(user, encrypt(userAccessToken), now)]
  {
    thrown := FailureCause(user.uid, fault, false);
    if thrown.Some? {
      return;
    }
    store.users := store.users[user.uid := LoginDoc(user, encrypt(userAccessToken), now)];
  }

  /** As written, a login by the current key holder breaks the lease invariant: the
      holder's key flag is cleared while `keys/main` still names them. */
  lemma {:induction false} HolderLoginBreaksLease(users: Users, holder: Option<string>, user: Identity, token: string, now: int)
    requires LeaseInvariant(users, holder) && holder == Some(user.uid)
    ensures !LeaseInvariant(users[user.uid := LoginDoc(user, token, now)], holder)
  {
    var after := users[user.uid := LoginDoc(user, token, now)];
    assert !after[user.uid].hasKey;
  }

  /** A concrete state that shows it: `slack_U1` holds the key and logs in again. */
  lemma HolderLoginExample()
    ensures var doc := UserDoc("slack_U1", "A", "", "", "slack", Some("U1"), Some("T1"), true, false, true, 0, 0, None);
            var user := Identity("slack_U1", "A", "", "", "slack", Some("U1"), Some("T1"));
            LeaseInvariant(map["slack_U1" := doc], Some("slack_U1")) &&
            !LeaseInvariant(map["slack_U1" := doc][user.uid := LoginDoc(user, "x", 1)], Some("slack_U1"))
  {
    var doc := UserDoc("slack_U1", "A", "", "", "slack", Some("U1"), Some("T1"), true, false, true, 0, 0, None);
    var user := Identity("slack_U1", "A", "", "", "slack", Some("U1"), Some("T1"));
    var users := map["slack_U1" := doc];
    assert LeaseInvariant(users, Some("slack_U1")) by {
      forall u | u in users && users[u].hasKey
        ensures Some("slack_U1") == Some(u)
      {
      }
    }
    HolderLoginBreaksLease(users, Some("slack_U1"), user, "x", 1);
  }

  /** The login document with presence kept: an existing document keeps its room flags,
      key flag and creation time; a new one starts with all flags `false`. */
  function PresenceKeepingLoginDoc(users: Users, user: Identity, encryptedToken: string, now: int): (d: UserDoc)
    ensures user.uid in users ==>
              d.room2218 == users[user.uid].room2218 && d.gradRoom == users[user.uid].gradRoom &&
              d.hasKey == users[user.uid].hasKey && d.createdAt == users[user.uid].createdAt
    ensures user.uid !in users ==> d == LoginDoc(user, encryptedToken, now)
    ensures d.name == user.name && d.email == user.email && d.avatar == user.avatar && d.lastActivity == now
    ensures d.slackUserToken == Some(encryptedToken)
  {
    var fresh_ := LoginDoc(user, encryptedToken, now);
    if user.uid in users then
      var prior := users[user.uid];
      fresh_.(room2218 := prior.room2218, gradRoom := prior.gradRoom, hasKey := prior.hasKey, createdAt := prior.createdAt)
    else
      fresh_
  }

  /** The presence-keeping login write keeps the lease invariant for every login. */
  lemma PresenceKeepingLoginPreservesLease(users: Users, holder: Option<string>, user: Identity, token: string, now: int)
    requires LeaseInvariant(users, holder) && user.uid != ""
    ensures LeaseInvariant(users[user.uid := PresenceKeepingLoginDoc(users, user, token, now)], holder)
  {
  }

  /** The login write with the presence flags kept for a returning user. */
  method SaveUserToFirestoreKeepingPresence(store: Store, user: Identity, userAccessToken: string,
                                            encrypt: string -> string, now: int, fault: Option<Thrown>)
    returns (thrown: Option<Thrown>)
    modifies store
    ensures store.holder == old(store.holder) && store.logs == old(store.logs)
    ensures thrown == FailureCause(user.uid, fault, false)
    ensures thrown.Some? ==> store.users == old(store.users)
    ensures thrown.None? ==>
              store.users == old(store.users)[user.uid := PresenceKeepingLoginDoc(old(store.users), user, encrypt(userAccessToken), now)]
    ensures LeaseInvariant(old(store.users), old(store.holder)) ==> LeaseInvariant(store.users, store.holder)
  {
    thrown := FailureCause(user.uid, fault, false);
    if thrown.Some? {
      return;
    }
    if LeaseInvariant(store.users, store.holder) {
      PresenceKeepingLoginPreservesLease(store.users, store.holder, user, encrypt(userAccessToken), now);
    }
    store.users := store.users[user.uid := PresenceKeepingLoginDoc(store.users, user, encrypt(userAccessToken), now)];
  }

  // ---------------------------------------------------------------------------
  // Messages posted by the result pages

  /** The origins both result pages post to, in order. */
  const TargetOrigins := ["https://mizuno-lab-access-control.web.app", "http://localhost:3001",
                          "http://localhost:5173", "http://localhost:5174"]

  /** The `message` objects the pages post. */
  datatype AuthMessage =
    | AuthSuccess(user: Identity, customToken: Option<string>, state: string)
    | AuthFailure(error: string)

  /** The message's `type` field. */
  function MessageType(m: AuthMessage): string {
    match m
    case AuthSuccess(_, _, _) => "SLACK_AUTH_SUCCESS"
    case AuthFailure(_) => "SLACK_AUTH_ERROR"
  }

  /** One `window.opener.postMessage(message, origin)` call. */
  datatype Post = Post(origin: string, message: AuthMessage)

  /** One post of `m` to each target origin, in order, when there is an opener; none otherwise. */
  function PostToOrigins(m: AuthMessage, hasOpener: bool): (posts: seq<Post>)
    ensures hasOpener ==> |posts| == |TargetOrigins| &&
                          forall i :: 0 <= i < |posts| ==> posts[i] == Post(TargetOrigins[i], m)
    ensures !hasOpener ==> posts == []
  {
    if hasOpener then seq(|TargetOrigins|, i requires 0 <= i < |TargetOrigins| => Post(TargetOrigins[i], m)) else []
  }

  /** The success page: the custom token is embedded as `null` when it is missing or empty. */
  function SuccessPosts(user: Identity, customToken: Option<string>, state: string, hasOpener: bool): (posts: seq<Post>)
    ensures forall i :: 0 <= i < |posts| ==>
              posts[i].message.AuthSuccess? && posts[i].message.user == user && posts[i].message.state == state &&
              MessageType(posts[i].message) == "SLACK_AUTH_SUCCESS" &&
              (posts[i].message.customToken.Some? <==> customToken.Some? && customToken.value != "") &&
              (posts[i].message.customToken.Some? ==> posts[i].message.customToken == customToken)
    ensures |posts| == if hasOpener then 4 else 0
  {
    var token := if customToken.Some? && customToken.value != "" then customToken else None;
    PostToOrigins(AuthSuccess(user, token, state), hasOpener)
  }

  /** The error page. */
  function ErrorPosts(error: string, hasOpener: bool): (posts: seq<Post>)
    ensures forall i :: 0 <= i < |posts| ==>
              posts[i].message == AuthFailure(error) && MessageType(posts[i].message) == "SLACK_AUTH_ERROR"
    ensures |posts| == if hasOpener then 4 else 0
  {
    PostToOrigins(AuthFailure(error), hasOpener)
  }

  /** Both pages address the same origins in the same order. */
  lemma SamePostTargets(user: Identity, customToken: Option<string>, state: string, error: string, hasOpener: bool)
    ensures var s := SuccessPosts(user, customToken, state, hasOpener);
            var e := ErrorPosts(error, hasOpener);
            |s| == |e| && forall i :: 0 <= i < |s| ==> s[i].origin == e[i].origin
  {
  }
}
