/** The records the client, the Cloud Functions and the Firestore collections
    share: the authenticated identity, the `users/{uid}` document and the
    attendance log entry. */
module AppTypes {
  import opened Wrappers

  /** A Slack identity as the login flow hands it to the client (`FirebaseUserData`
      on the server, `FirebaseAuthUser` on the client). */
  datatype Identity = Identity(
    uid: string,
    name: string,
    email: string,
    avatar: string,
    provider: string,
    slackUserId: Option<string>,
    slackTeamId: Option<string>)

  /** A `users/{uid}` document. Timestamps are server times in abstract units. */
  datatype UserDoc = UserDoc(
    uid: string,
    name: string,
    email: string,
    avatar: string,
    provider: string,
    slackUserId: Option<string>,
    slackTeamId: Option<string>,
    room2218: bool,
    gradRoom: bool,
    hasKey: bool,
    createdAt: int,
    lastActivity: int,
    slackUserToken: Option<string>)

  /** The argument of the client's `saveUser`: a user document without its timestamps.
      `avatar` is optional: `None` is an `avatar` property that is present but
      `undefined`, which is how the only caller passes a user without a photo. */
  datatype NewUser = NewUser(
    uid: string,
    name: string,
    email: string,
    avatar: Option<string>,
    provider: string,
    slackUserId: Option<string>,
    slackTeamId: Option<string>,
    room2218: bool,
    gradRoom: bool,
    hasKey: bool)

  datatype RoomType = Room2218 | GradRoom

  /** The value of the named room flag of a document. */
  function RoomFlag(u: UserDoc, room: RoomType): bool {
    match room
    case Room2218 => u.room2218
    case GradRoom => u.gradRoom
  }

  const Enter := "入室"
  const Leave := "退室"
  const TakeKey := "鍵取得"
  const ReturnKey := "鍵返却"

  /** What the client passes to `addLog`. */
  datatype AttendanceLog = AttendanceLog(userId: string, userName: string, action: string, room: string)

  /** A `logs/{id}` document: the entry plus its server timestamp. */
  datatype LogDoc = LogDoc(userId: string, userName: string, action: string, room: string, timestamp: int)
}
