# Mizuno Lab access control — a Dafny model of its core

The system records who is in the laboratory's two rooms (room A2218 and the
graduate-student room) and who holds the single room key. Its core has these parts:

- **Firestore data layer.** Users upsert their records, toggle their presence flags
  and take or return the key. The key is a lease held in the singleton document
  `keys/main`, and taking or returning it runs as one transaction over the `users`
  collection and that document.
- **Cloud Functions back end.**
  - It signs OAuth `state` tokens with HMAC.
  - It stores Slack user tokens in an AES-GCM envelope.
  - It maps a Slack profile to a user record and merge-writes that record at login.
  - It loads and validates its configuration.
  - It formats Slack notifications from Firestore triggers.
  - It offers a development-only reset endpoint.
- **Demo realtime server.** It keeps users and a capped, newest-first log in memory
  and formats its own Slack messages.
- **Client.**
  - Error classifiers and a `Result` wrapper.
  - The attendance hook, which updates a status first and logs second.
  - The Slack sign-in popup, a small state machine over window messages and a close
    poll.

The modules follow the source files:

| module | file(s) | form |
|---|---|---|
| `Wrappers`, `Text`, `JsValues`, `AppTypes` | shared | `Option`; JavaScript `split`/`join`/`includes`, hex and decimal text; JavaScript values with truthiness, property access, object spread and template rendering; the user and log records |
| `Firestore` | src/firebase/firestore.ts | class `Store` (users map, lease holder, logs) whose methods apply pure transaction functions atomically |
| `ErrorHandler` | src/utils/errorHandler.ts | pure classifiers and `Result` |
| `ServerErrors` | functions/src/utils/errors.ts | the `AppError` hierarchy as one datatype with a kind |
| `OAuthState` | functions/src/services/oauthState.ts | pure, over abstract base64/HMAC/JSON with stated laws |
| `Encryption` | functions/src/services/encryption.ts | concrete envelope format over an abstract AEAD with stated laws |
| `Environment` | functions/src/config/environment.ts | pure loading and path lookup; class `Environment` with a looping validator |
| `OAuthHelpers` | functions/src/oauthHelpers.ts | pure mapping and post payloads; the login write as a method on the store |
| `CloudFunctions` | functions/src/index.ts | pure formatters and trigger decisions; `resetData` as a method on the store |
| `SlackUtils` | slack-utils.js | pure formatters |
| `DemoServer` | server.js | class `SharedData` with `seq` fields, looping methods, specification functions |
| `Attendance` | src/hooks/useAttendance.ts | pure toggle rules; class `AttendanceHook` sequencing store calls |
| `SlackAuth` | src/services/slackAuth.ts | pure popup state machine; class `SlackAuthService` over session storage |

The model treats its environment as follows:

- **Environmental faults.** A failed network call, a permission error or a failed
  `createCustomToken` is a parameter of type `Option<Thrown>` or `Settled<T>`.
- **Time and randomness.** The clock, the random bytes and the formatted timestamps
  are parameters.
- **Cryptography and codecs.** HMAC-SHA256, AES-256-GCM, base64 and JSON are fields of
  arrow type. Their laws are ghost predicates over those fields: `OAuthState.Lawful`
  (the base64 round trip, the HMAC digest's hex shape, and parsing the payload JSON
  back to its timestamp), `SlackAuth.Lawful` (the JSON round trip), and in
  `Encryption` three separate laws, `RoundTrip`, `Utf8RoundTrip` and `Authentic`.

## Model

| member | source | states |
|---|---|---|
| Firestore.AtMostOneHolder | src/firebase/firestore.ts:110-147 | under the lease invariant at most one user has `hasKey` |
| Firestore.WithKey | src/firebase/firestore.ts:121-142 | a key update sets `hasKey` and `lastActivity` and leaves every other field unchanged |
| Firestore.AcquireEffect | src/firebase/firestore.ts:111-135 | acquiring succeeds iff the caller's document exists and so does the previous holder's (a missing lease counts as no holder); the caller then has the key, the lease names the caller, a different previous holder loses the key, and no other user changes |
| Firestore.AcquireByHolder | src/firebase/firestore.ts:121-127 | acquiring by the current holder changes only the holder's own document |
| Firestore.AcquireKey | src/firebase/firestore.ts:110-135 | a successful pick-up keeps the set of users and leaves the caller flagged and named by the lease |
| Firestore.ReleaseKey | src/firebase/firestore.ts:138-146 | a return succeeds iff the caller exists, keeps the set of users, and leaves the caller unflagged and not named by the lease |
| Firestore.KeyTransaction | src/firebase/firestore.ts:110-147 | on success the caller's flag is the requested one, and the lease names the caller iff it took the key |
| Firestore.ReleaseEffect | src/firebase/firestore.ts:138-146 | releasing succeeds iff the caller exists; the caller loses the key, the lease is cleared only if it named the caller, and no other user changes |
| Firestore.AcquirePreservesLease | src/firebase/firestore.ts:110-135 | acquiring keeps the lease invariant and succeeds for every existing user when the invariant holds |
| Firestore.ReleasePreservesLease | src/firebase/firestore.ts:138-147 | releasing keeps the lease invariant |
| Firestore.AcquireThenAcquire | src/firebase/firestore.ts:116-135 | a second user taking the key takes it away from the first, and the first is left without it |
| Firestore.ReleaseByNonHolder | src/firebase/firestore.ts:138-146 | a release by a non-holder leaves the lease and the holder's key in place |
| Firestore.SavedUser | src/firebase/firestore.ts:34-57 | for a defined avatar, an existing uid changes only name, email, avatar, provider and lastActivity; a new uid stores every given field, with createdAt equal to lastActivity |
| Firestore.SaveUserPreservesLease | src/firebase/firestore.ts:41-57 | the user upsert keeps the lease invariant |
| Firestore.WithRoom | src/firebase/firestore.ts:87-91 | a room update sets exactly the named flag and lastActivity |
| Firestore.RoomUpdatePreservesLease | src/firebase/firestore.ts:87-91 | a room update keeps the lease invariant |
| Firestore.SaveUserFailure | src/firebase/firestore.ts:36-57 | `saveUser` fails exactly when the uid is empty, the environment faults or the avatar is `undefined`; the last throws Firestore's unsupported-field error from `updateDoc` or `setDoc` |
| Firestore.FailureCause | src/firebase/firestore.ts:58-62 | an operation fails exactly when the uid is empty, the environment faults or the document it updates is missing |
| Firestore.Rethrow | src/firebase/firestore.ts:149-153 | every failure is rethrown as the FirestoreError from `handleFirestoreError` |
| Firestore.Store.SaveUser | src/firebase/firestore.ts:34-63 | the store after `saveUser`: the upserted document on success, nothing changed on failure (an `undefined` avatar included), and the lease invariant kept |
| Firestore.Store.UpdateUserRoomStatus | src/firebase/firestore.ts:80-103 | the store after a room update, failing on a missing document; the lease invariant is kept |
| Firestore.Store.UpdateUserKeyStatus | src/firebase/firestore.ts:105-154 | the transaction's result is applied atomically or nothing changes and a FirestoreError is returned; the lease invariant is kept |
| Firestore.Store.AddLog | src/firebase/firestore.ts:157-168 | a log document with the server time is appended, or a FirestoreError is returned and nothing changes |
| ErrorHandler.NewError | src/utils/errorHandler.ts:17-36 | the three error classes carry `AUTH_ERROR`, `FIRESTORE_ERROR` and `SLACK_ERROR` with their names, message and original error |
| ErrorHandler.CodesDistinguishClasses | src/utils/errorHandler.ts:17-36 | the code determines the error class |
| ErrorHandler.HandleFirestoreError | src/utils/errorHandler.ts:69-80 | the permission text maps to the permission-denied message, the `network` text to the network message, any other Error keeps its message and original, and a non-Error becomes the unknown-error message with no original |
| ErrorHandler.HandleAuthError | src/utils/errorHandler.ts:83-94 | the same fallbacks, with `timeout` and then `permission` tested |
| ErrorHandler.PermissionBeatsNetwork | src/utils/errorHandler.ts:70-76 | a message containing both texts is classified as a permission error |
| ErrorHandler.TimeoutBeatsPermission | src/utils/errorHandler.ts:84-90 | a message containing both texts is classified as a timeout |
| ErrorHandler.WithErrorHandling | src/utils/errorHandler.ts:106-119 | resolves to `success(data)`, or to `failure(handler(err))` when the function throws; it never throws |
| ErrorHandler.WithDefaultErrorHandling | src/utils/errorHandler.ts:108 | the default handler is `handleFirestoreError` |
| ServerErrors.StatusCode | functions/src/utils/errors.ts:25-77 | every status code is a 4xx or 5xx code |
| ServerErrors.NewAppError | functions/src/utils/errors.ts:1-23 | the status defaults to 500 and the error is operational by default |
| ServerErrors.NewError | functions/src/utils/errors.ts:25-77 | each subclass has its name, its fixed status, its message prefix or default message, and is operational unless it is InternalServerError |
| ServerErrors.OperationalUnlessInternal | functions/src/utils/errors.ts:55-59 | an error is non-operational iff it is InternalServerError; the status is 502 iff it is SlackAPIError |
| ServerErrors.HandleError | functions/src/utils/errors.ts:83-98 | an AppError is returned unchanged, an Error becomes InternalServerError with its message, anything else becomes `Unknown error occurred` |
| ServerErrors.HandleErrorIdempotent | functions/src/utils/errors.ts:83-86 | handling an already handled error changes nothing |
| OAuthState.GenerateState | functions/src/services/oauthState.ts:30-42 | the token decodes to exactly two `.`-separated segments, the payload and its HMAC, and the payload parses back to the issue second |
| OAuthState.ValidateState | functions/src/services/oauthState.ts:47-76 | a token it accepts is one `isExpired` does not report as expired; with both segments non-empty and a matching signature, it is accepted iff the payload has a numeric timestamp `t` with `now - t <= expiryMinutes*60` (boundary inclusive, future timestamps passing) |
| OAuthState.IsExpired | functions/src/services/oauthState.ts:81-95 | a payload that does not parse counts as expired; one whose timestamp converts to NaN never does; one whose timestamp converts to `t` is expired iff `now - t > expiryMinutes*60` |
| OAuthState.GetStateTimestamp | functions/src/services/oauthState.ts:100-109 | null exactly when the payload does not parse, else the numeric reading of the payload's timestamp field |
| OAuthState.PayloadJsonLacksDot | functions/src/services/oauthState.ts:31-33 | the JSON of an integer timestamp and a hex nonce contains no `.` and is not empty |
| OAuthState.GeneratedTokenValidates | functions/src/services/oauthState.ts:30-72 | under the same secret, a generated token validates iff it is checked within `expiryMinutes*60` seconds of issue (inclusive, future issue times pass) |
| OAuthState.RejectsMissingSegment | functions/src/services/oauthState.ts:51-55 | a decoded text without a non-empty payload or signature segment is refused |
| OAuthState.RejectsWrongSignature | functions/src/services/oauthState.ts:58-64 | a signature that differs from the recomputed HMAC is refused |
| OAuthState.ValidatedMeansSignedAndFresh | functions/src/services/oauthState.ts:47-75 | an accepted token carries the HMAC of its payload, which parses to an object with a timestamp inside the window; a failed parse refuses |
| OAuthState.ForgedSignatureRejected | functions/src/services/oauthState.ts:58-64 | replacing a generated token's signature by any other text without a `.` gives a refused token |
| OAuthState.TrailingSegmentsIgnored | functions/src/services/oauthState.ts:51 | segments after the second `.` do not affect validation |
| OAuthState.IsExpiredIgnoresSignature | functions/src/services/oauthState.ts:81-95 | `isExpired` does not read the signature |
| OAuthState.GeneratedTokenProjections | functions/src/services/oauthState.ts:81-109 | on a generated token `isExpired` is the negation of `validateState`, and `getStateTimestamp` returns the issue second |
| OAuthState.IsExpiredNotAuthoritative | functions/src/services/oauthState.ts:81-95 | a fresh token with a forged signature is refused by `validateState` but not reported as expired |
| Encryption.EncryptSlackToken | functions/src/services/encryption.ts:25-40 | with a 32-byte key the envelope of the sealed token is returned; any other key length throws `Invalid key length` before anything is sealed |
| Encryption.DecryptSlackToken | functions/src/services/encryption.ts:45-69 | every throw carries one of the messages the function can raise (format, AAD, IV, key length, tag length, odd-length hex, authentication); a return means all checks passed in that order, the tag opened the ciphertext and the value is its UTF-8 decoding |
| Encryption.HexSegmentsSplit | functions/src/services/encryption.ts:39-46 | four hex segments joined by `:` split back into exactly those four |
| Encryption.EnvelopeHasFourSegments | functions/src/services/encryption.ts:26-39 | an envelope is `hex("slack-token"):hex(iv):hex(tag):hex(ct)` and splits into four segments |
| Encryption.DecryptEncrypt | functions/src/services/encryption.ts:25-68 | under the same key, decrypting a produced envelope gives the token back |
| Encryption.WrongSegmentCountIsMalformed | functions/src/services/encryption.ts:46-49 | a segment count other than four throws the malformed-format error |
| Encryption.AadCheckedBeforeDecryption | functions/src/services/encryption.ts:56-61 | a wrong first segment throws the AAD error whatever the cipher and key |
| Encryption.WrongKeyLengthThrows | functions/src/services/encryption.ts:27 | a key that is not 32 bytes makes encryption throw, and decryption of a well-formed envelope throw, `Invalid key length` |
| Encryption.TrailingDigitRejected | functions/src/services/encryption.ts:54-66 | one hex digit appended to a produced envelope makes decryption throw the odd-length hex error for the new length |
| Encryption.OddCiphertextHexRejected | functions/src/services/encryption.ts:54-65 | an envelope that passes every other check but whose ciphertext hex has odd length throws the odd-length hex error |
| Encryption.ForgedEnvelopeRejected | functions/src/services/encryption.ts:61-66 | a ciphertext and tag that no sealing under the carried key, IV and AAD produced make decryption throw |
| Encryption.DecryptedMeansAuthentic | functions/src/services/encryption.ts:46-68 | a successful decryption had four segments, the fixed AAD, a 32-byte key, an accepted tag length, and a plaintext whose sealing gives the ciphertext and a tag the carried one begins |
| Environment.EnvVar | functions/src/config/environment.ts:47-57 | an unset variable reads as `''` |
| Environment.LoadConfig | functions/src/config/environment.ts:44-64 | every field comes from its variable; the state secret is `STATE_SECRET`, else `ENCRYPTION_KEY`, else `''`; the algorithm, expiry and service account are fixed |
| Environment.LookupPath | functions/src/config/environment.ts:83-85 | looking up a path `a.b` in the configuration object reads field `b` of member `a` |
| Environment.Walk | functions/src/config/environment.ts:84 | once a step is undefined, every further step stays undefined |
| Environment.SingleKeyLookup | functions/src/config/environment.ts:83-85 | a path without `.` reads that one member of the object |
| Environment.MissingStepUndefined | functions/src/config/environment.ts:84 | a missing first key makes the whole path undefined |
| Environment.WalkTwo | functions/src/config/environment.ts:83-85 | a two-key path reads the field of the nested object |
| Environment.RequiredPathResolves | functions/src/config/environment.ts:67-76 | each required path resolves to its configuration field |
| Environment.PathPresentIffNonEmpty | functions/src/config/environment.ts:76-77 | a required path passes iff its field is non-empty |
| Environment.RequiredPresentIffAllNonEmpty | functions/src/config/environment.ts:66-81 | the five configuration fields are non-empty iff each value the required paths name, in order, is non-empty |
| Environment.RequiredPresentIffAllPathsPresent | functions/src/config/environment.ts:66-81 | the five configuration fields are non-empty iff every required path, looked up by its dotted name, is present |
| Environment.Environment.constructor | functions/src/config/environment.ts:32-33 | the configuration is the loaded one |
| Environment.Environment.ValidateConfig | functions/src/config/environment.ts:66-81 | reports the first required path, in the listed order, whose value is empty, and nothing iff all are present |
| Environment.Environment.Get | functions/src/config/environment.ts:87-89 | returns the configuration |
| Environment.NewEnvironment | functions/src/config/environment.ts:32-35 | an environment is built iff validation passes, and then every required value is non-empty |
| Environment.StateSecretNeverReported | functions/src/config/environment.ts:57 | with an encryption key present, the state secret is never empty |
| Environment.ChannelIdNotRequired | functions/src/config/environment.ts:67-73 | the channel id does not affect validation |
| OAuthHelpers.TransformSlackUserToFirebase | functions/src/oauthHelpers.ts:110-123 | uid is `slack_` + id; provider is `slack`; the Slack ids are copied; the email is the profile's or `''` |
| OAuthHelpers.NameFallbackOrder | functions/src/oauthHelpers.ts:116 | the name is the first non-empty of display name, real name and name, else `Unknown User` |
| OAuthHelpers.AvatarFallbackOrder | functions/src/oauthHelpers.ts:118 | the avatar is image_192, else image_72, else `''` |
| OAuthHelpers.UidDeterminesSlackId | functions/src/oauthHelpers.ts:115-120 | the uid determines the Slack user id |
| OAuthHelpers.GenerateFirebaseCustomToken | functions/src/oauthHelpers.ts:128-148 | the created token, or null when creation throws |
| OAuthHelpers.LoginDoc | functions/src/oauthHelpers.ts:162-171 | the login document: the mapped user, all presence and key flags false, both times the login time, the encrypted token |
| OAuthHelpers.SaveUserToFirestore | functions/src/oauthHelpers.ts:153-174 | the merge-write as written; the lease document is untouched |
| OAuthHelpers.HolderLoginBreaksLease | functions/src/oauthHelpers.ts:162-171 | a login by the key holder breaks the lease invariant |
| OAuthHelpers.HolderLoginExample | functions/src/oauthHelpers.ts:162-171 | a concrete holder and login that show it |
| OAuthHelpers.PresenceKeepingLoginDoc | functions/src/oauthHelpers.ts:162-171 | the corrected document: a returning user keeps room flags, key flag and creation time |
| OAuthHelpers.PresenceKeepingLoginPreservesLease | functions/src/oauthHelpers.ts:162-171 | the corrected write keeps the lease invariant |
| OAuthHelpers.SaveUserToFirestoreKeepingPresence | functions/src/oauthHelpers.ts:153-174 | the corrected write on the store, keeping the lease invariant |
| OAuthHelpers.PostToOrigins | functions/src/oauthHelpers.ts:210-225 | one post to each of the four fixed origins in order when there is an opener, none otherwise |
| OAuthHelpers.SuccessPosts | functions/src/oauthHelpers.ts:205-231 | `SLACK_AUTH_SUCCESS` with the user and state; the custom token only when non-empty |
| OAuthHelpers.ErrorPosts | functions/src/oauthHelpers.ts:260-278 | `SLACK_AUTH_ERROR` with the error |
| OAuthHelpers.SamePostTargets | functions/src/oauthHelpers.ts:210-278 | both pages post to the same origins in the same order |
| CloudFunctions.Preposition | functions/src/index.ts:47 | `に` iff the action is `入室`, `から` otherwise |
| CloudFunctions.FormatAttendanceMessage | functions/src/index.ts:41-50 | the first line, then `時刻: ` and the timestamp, with nothing else |
| CloudFunctions.KeyExtraLine | functions/src/index.ts:61-65 | the holder line only for `鍵取得` with a non-empty name; the return line iff `鍵返却`; otherwise nothing |
| CloudFunctions.FormatKeyMessage | functions/src/index.ts:53-69 | exactly the first line, then the optional holder or return line at its position, then `時刻: ` and the timestamp, with no other text |
| CloudFunctions.OnLogCreate | functions/src/index.ts:72-139 | nothing exactly for an empty snapshot or a pick-up whose holder query throws; the key format for `鍵取得`/`鍵返却`, with the first `hasKey` user's name only for a pick-up; the attendance format otherwise |
| CloudFunctions.OnUserKeyStatusChange | functions/src/index.ts:142-176 | a message iff `hasKey` changed |
| CloudFunctions.KeyChangeAnnouncement | functions/src/index.ts:150-168 | the action is `鍵取得` iff the flag is now set, and the holder name is passed only then |
| CloudFunctions.HolderLoginAnnouncesReturn | functions/src/index.ts:142-176 | after the login write as written, a holder's login is announced as a key return |
| CloudFunctions.PresenceKeepingLoginAnnouncesNothing | functions/src/index.ts:142-176 | after the corrected login write, a login announces nothing |
| CloudFunctions.ResetData | functions/src/index.ts:191-217 | 403 iff production; otherwise all users and logs are deleted and the notice is sent, or a 500 on failure; `keys/main` is untouched |
| CloudFunctions.StaleHolderBlocksAcquire | functions/src/index.ts:199-207 | with the lease naming a deleted user, every pick-up by another user fails |
| CloudFunctions.StaleHolderExample | functions/src/index.ts:199-207 | a concrete reset, re-registration and failed pick-up |
| CloudFunctions.ResetDataClearingLease | functions/src/index.ts:191-217 | the corrected reset also clears the lease and leaves the lease invariant holding |
| CloudFunctions.AcquireAfterClearingReset | functions/src/index.ts:199-207 | after the corrected reset, every re-registered user can pick up the key |
| SlackUtils.InheritedText | slack-utils.js:88-89 | an inherited `Object.prototype` member renders as a non-empty text starting with `f` or `[`, on one line |
| SlackUtils.Lookup | slack-utils.js:88-89 | the own non-empty entry; otherwise the inherited member's text for an `Object.prototype` name; otherwise the fallback |
| SlackUtils.ActionEmojiDefault | slack-utils.js:76-88 | the action emoji is `📝` iff the action is neither in the four-entry table nor an inherited name |
| SlackUtils.RoomEmojiDefault | slack-utils.js:83-89 | the room emoji is `🏠` iff the room is neither in the table nor an inherited name |
| SlackUtils.InheritedNamesShowThrough | slack-utils.js:88-89 | the action `constructor` shows the text of `Object` and the room `__proto__` shows `[object Object]` |
| SlackUtils.ProviderLine | slack-utils.js:98-105 | a provider line appears iff the provider is set and is not `manual`, with the google/slack/default emoji |
| SlackUtils.FirstLine | slack-utils.js:92 | exactly the action emoji, the name and ` が `, followed by the room emoji, the room, ` に ` and the action; no line break when the name, action and room have none |
| SlackUtils.FormatAttendanceMessage | slack-utils.js:72-108 | the first line and `⏰` timestamp line, followed by nothing, or by exactly the provider emoji, the provider and `認証` when the provider line applies |
| SlackUtils.KeyLocationText | slack-utils.js:119-123 | never empty, and `詰所` exactly when the location is empty or is `詰所` |
| SlackUtils.KeyLocationIsOrElse | slack-utils.js:119-123 | the key line names `詰所` when the location is empty or is `詰所`, else the location |
| SlackUtils.FormatKeyMessage | slack-utils.js:116-124 | exactly the attendance message for the same entry and user followed by the key line naming the location, or `詰所` when it is empty |
| SlackUtils.NamesText | slack-utils.js:136-149 | `誰もいません` for an empty room, else the names joined by `, ` |
| SlackUtils.RoomLine | slack-utils.js:136-149 | a room line is its heading, then ` (n人): ` with `n` the length of the list, then the names text; it is one line when no name holds a line break |
| SlackUtils.KeyLine | slack-utils.js:152 | the key line names the holder, or `詰所` when there is none |
| SlackUtils.FormatStatusSummary | slack-utils.js:132-155 | the title and room A2218's line come first, the graduate room's line is exactly the middle, and the key line comes last |
| SlackUtils.SummaryIsJoin | slack-utils.js:132-155 | the summary is the title, the two room lines and the key line joined by line breaks |
| SlackUtils.SummaryLines | slack-utils.js:132-155 | when no name holds a line break, splitting the summary at line breaks gives exactly those four lines |
| SlackUtils.Spaced | slack-utils.js:140 | each name behind the blank that follows a comma |
| SlackUtils.JoinCommaSpace | slack-utils.js:140 | joining by `, ` is joining the spaced names by `,` |
| SlackUtils.NamesRecoverable | slack-utils.js:136-149 | when no name holds a comma, splitting a room's names at commas gives the names back |
| JsValues.Spread | server.js:62 | a spread object has both key sets, and the right side wins |
| JsValues.Render | slack-utils.js:92 | a string renders as itself and a truthy value renders non-empty |
| DemoServer.IndexOf | server.js:45 | `findIndex` by id: the first match, or -1 |
| DemoServer.Registered | server.js:45-50 | replaces the entry with the same id wholesale or appends; the ids gain exactly the new one |
| DemoServer.RegisterPreservesUniqueIds | server.js:45-50 | ids that start unique stay unique |
| DemoServer.RegisterIdempotent | server.js:45-50 | registering the same data twice equals registering it once |
| DemoServer.Merged | server.js:60-63 | shallow-merges the data into the first matching user; users are unchanged for an unknown id |
| DemoServer.MergePreservesUniqueIds | server.js:60-63 | a merge that does not set `id` keeps the ids unique |
| DemoServer.Cleared | server.js:96 | every user's key flag is `false` and every other property is unchanged |
| DemoServer.KeyAssigned | server.js:93-98 | for a known id, every other user loses the key and the target gets the requested value; other fields are untouched; an unknown id changes nothing |
| DemoServer.FirstHolder | server.js:113 | the first user whose `hasKey` is truthy |
| DemoServer.ShouldNotify | server.js:77 | only a literal `false` silences an update with a log entry; a missing or other falsy flag does not |
| DemoServer.UserAt | server.js:78 | a known index gives that user; an unknown one gives an object without provider or key |
| DemoServer.KeyLocation | server.js:113-114 | the rendered name of the first user holding the key, `''` when that name is falsy or nobody holds the key |
| DemoServer.KeyUpdateLeavesOneHolder | server.js:93-98 | afterwards at most one user holds the key, and none after a return |
| DemoServer.Prepended | server.js:66-70 | the entry followed by the previous first 49 entries in order |
| DemoServer.Logged | server.js:101-104 | the log is unchanged without an entry; with one, it holds the entry and then the first `min(n, 49)` previous entries in order, so its length is `min(n + 1, 50)` |
| DemoServer.ProviderOf | server.js:78-79 | the provider line is shown iff the user carries a provider that is truthy and not `manual` |
| DemoServer.RenderManual | server.js:79 | only the string `manual` renders as `manual` |
| DemoServer.SharedData.constructor | server.js:28-31 | both lists start empty |
| DemoServer.SharedData.FindIndex | server.js:45 | the loop finds the first index with the id, or -1 |
| DemoServer.SharedData.AddLog | server.js:66-70 | `unshift` then `slice(0, 50)` |
| DemoServer.SharedData.UserRegister | server.js:41-54 | the users become `Registered`, keeping unique ids |
| DemoServer.SharedData.RoomUpdate | server.js:57-87 | users merged, log updated, and a Slack message only when an entry is present and `sendToSlack !== false` |
| DemoServer.SharedData.KeyUpdate | server.js:90-122 | the clear-all loop, then the target set; the log updated; the key message names the first holder |
| DemoServer.SharedData.Reset | server.js:131-135 | both lists become empty |
| Attendance.FindUser | src/hooks/useAttendance.ts:22 | the first user with the uid, or none iff no user has it |
| Attendance.EntersRoom | src/hooks/useAttendance.ts:22-23 | the target is the negated room flag; a missing record means entering |
| Attendance.TakesKey | src/hooks/useAttendance.ts:47-48 | the target is the negated key flag; a missing record means taking |
| Attendance.RoomLog | src/hooks/useAttendance.ts:27-32 | `入室` iff entering, and `A2218室` iff the room is room2218, else `院生室` |
| Attendance.KeyLog | src/hooks/useAttendance.ts:52-57 | `鍵取得` iff taking, always in `A2218室` |
| Attendance.RoomToggleFlips | src/hooks/useAttendance.ts:22-25 | with a snapshot that agrees with the store, a room toggle flips the stored flag |
| Attendance.KeyToggleFlips | src/hooks/useAttendance.ts:47-50 | with a snapshot that agrees with the store, a key toggle succeeds and flips the key flag |
| Attendance.AttendanceHook.constructor | src/hooks/useAttendance.ts:13-14 | not loading, no error |
| Attendance.AttendanceHook.HandleRoomToggle | src/hooks/useAttendance.ts:16-39 | nothing without a user; the log is written only after the update succeeds; a failure sets the error message; loading ends false; the lease invariant is kept |
| Attendance.AttendanceHook.HandleKeyToggle | src/hooks/useAttendance.ts:41-64 | the same sequencing around the key transaction |
| SlackAuth.Start | src/services/slackAuth.ts:14-23 | a blocked popup rejects at once with the popup-blocked message; otherwise the machine is pending |
| SlackAuth.Receive | src/services/slackAuth.ts:28-53 | other origins and other types are ignored; success resolves with the user and error rejects with its message, both tearing down; a store failure tears down without resolving |
| SlackAuth.Tick | src/services/slackAuth.ts:58-64 | a closed popup while pending tears down and rejects as cancelled |
| SlackAuth.SettledIsFinal | src/services/slackAuth.ts:37-64 | once settled, no message or tick changes the state |
| SlackAuth.StoreFailureStrandsSignIn | src/services/slackAuth.ts:37-45 | when storing the user throws, the sign-in stays pending with no listener and no poll, and nothing later settles it |
| SlackAuth.OutcomeKindByOriginAndType | src/services/slackAuth.ts:37-53 | the outcome's kind depends only on origin and type |
| SlackAuth.SlackAuthService.SignInWithPopup | src/services/slackAuth.ts:11-23 | the machine starts; the session is untouched |
| SlackAuth.SlackAuthService.constructor | src/services/slackAuth.ts:3-8 | no sign-in has started and nothing is installed |
| SlackAuth.SlackAuthService.OnMessage | src/services/slackAuth.ts:28-53 | the stringified user is stored under `slackAuthUser` before resolving, exactly for a trusted success whose store does not throw; nothing else touches the session |
| SlackAuth.SlackAuthService.OnPoll | src/services/slackAuth.ts:58-64 | one poll tick |
| SlackAuth.SlackAuthService.GetStoredSlackUser | src/services/slackAuth.ts:81-88 | null when the key is absent or empty, else the parse, null when it fails |
| SlackAuth.SlackAuthService.SignOut | src/services/slackAuth.ts:91-93 | the key is removed |
| SlackAuth.SignInRoundTrip | src/services/slackAuth.ts:37-93 | after a trusted success the stored user reads back, and after sign-out there is none |

## Left out

- Network calls are not modelled: `sendSlackMessage` in both files, `exchangeSlackToken`
  and `fetchSlackUserInfo`. Each Slack message is returned rather than sent. A failed
  send, which every caller catches and logs, is not modelled.
- `sendTestMessage` (functions/src/index.ts:179-188) only forwards a message to Slack
  and answers; it is network glue.
- `verifyUserSaved` (functions/src/oauthHelpers.ts:179) is a read-back for logging.
- The HTML and JavaScript text of the result pages, and its escaping, are not modelled;
  only the posted messages are.
- Clocks and locale formatting are not modelled: `Date.now`, `serverTimestamp` and
  `toLocaleString('ja-JP')` become integer or string parameters.
- Randomness is not modelled: the IV and the nonce are parameters.
  - `Encryption.EncryptSlackToken` requires 16 IV bytes, as `randomBytes(16)` gives.
  - `OAuthState.GenerateState` requires 16 random bytes for the same reason.
- The cryptographic primitives and codecs are not modelled.
  - HMAC-SHA256, AES-256-GCM, base64 and JSON are abstract.
  - Their laws are exactly the round trips the proofs use.
  - Nothing about their security is stated beyond AEAD tag checking.
  - UTF-8 encoding and decoding are abstract: the only law used is that decoding an
    encoded text gives it back. How malformed bytes decode is not modelled.
- `Encryption.DecryptSlackToken` compares the ciphertext hex length in characters;
  JavaScript counts UTF-16 code units, which differs only for non-BMP characters, and
  those are not hex anyway.
- Concurrency is not modelled: Firestore transaction retries, concurrent triggers and
  Socket.IO broadcasting. Each transaction body, handler and trigger is one atomic step.
- The Firestore subscriptions and `getAllUsers` are not modelled; they are listener
  plumbing.
- Singletons and getters are not modelled.
  - `getInstance` caching in `Environment` and `OAuthStateService` is left out.
  - The `getSlack`/`getEncryption`/`getOAuth`/`getFirebase` projections are left out.
- Logging is not modelled: `logError` and the console output.
- `getAuthUrl` (src/services/slackAuth.ts:69-78) only builds a URL from constants.
- `ServerErrors.HandleError`: context values are reduced to strings and the stack entry
  is omitted.
- `ServerErrors.NewError` requires a message or a default message. Without one the
  source behaves in two ways, and neither is modelled: `ValidationError` passes
  `undefined` to `Error`, which leaves the message empty; `SlackAPIError`,
  `EncryptionError` and `OAuthError` interpolate it, giving for example
  `Slack API Error: undefined`.
- `DemoServer`: ids are compared by value. JavaScript `===` on two object ids compares
  references, a case this model does not distinguish.
- `JsValues.Render`: numbers are integers; `NaN`, floating point and nested objects
  render only as described.
- `OAuthState.IsExpired`, `OAuthState.ValidateState` and `OAuthState.GetStateTimestamp`:
  JavaScript's conversion of the parsed timestamp to a number is folded into the
  abstract `jsonParse`. Only integer and NaN results are modelled. `getStateTimestamp`
  returns the raw field (for example the string `"0"`), while the model returns its
  numeric reading.
- `OAuthHelpers.SaveUserToFirestore` takes `encrypt` as a total function. A throw from
  `encryptSlackToken`, such as `Invalid key length`, happens before anything is
  written. The model expresses it only through the `fault` parameter, not as the
  encryption error itself.
- `SlackAuth.SlackAuthService.SignInWithPopup` starts a fresh machine each call. A second
  sign-in while one is pending leaves the first promise, listener and poll running in
  the source; the model keeps only the latest.
- `SlackAuth.SlackAuthService.GetStoredSlackUser` does not model `sessionStorage`
  throwing.
- `SlackAuth.Receive` does not model a message without `data`, which throws in the
  listener.
- `CloudFunctions.OnLogCreate` models a throwing key-holder query as a parameter; other
  throws inside the trigger (formatting, the Slack call) are not modelled.
- `SlackAuth.SlackAuthService.OnMessage` models a throwing `JSON.stringify` or
  `sessionStorage.setItem` as the `storeFails` parameter; which of the two threw is not
  distinguished.
- `CloudFunctions.ResetData` does not model a fault partway through: a fault deletes
  nothing, while the source may delete part of the documents.
- The OAuth callback endpoint itself (method, code and state checks) is not part of
  this model; only its helpers are.

## Findings

| source | as written | input that shows it | evidently intended | confidence | as-written member | corrected member |
|---|---|---|---|---|---|---|
| functions/src/oauthHelpers.ts:162-171 | every login merge-writes `hasKey: false`, `room2218: false` and `gradRoom: false`, and never touches `keys/main` | `slack_U1` holds the key (its `hasKey` is true and `keys/main` names it) and logs in again; afterwards `keys/main` names a user without the key, and `onUserKeyStatusChange` announces a key return nobody made | a login keeps a returning user's presence, key flag and creation time, as the client `saveUser` does (src/firebase/firestore.ts:41-49) | not executed | OAuthHelpers.HolderLoginBreaksLease | OAuthHelpers.SaveUserToFirestoreKeepingPresence |
| functions/src/index.ts:199-207 | the reset deletes every user and log document but leaves `keys/main` naming the last holder | `slack_A` holds the key; after a reset `slack_B` registers and tries to take the key; the transaction updates the deleted `users/slack_A` and fails, and it keeps failing until `slack_A` registers again | the reset also clears the lease | not executed | CloudFunctions.StaleHolderBlocksAcquire | CloudFunctions.ResetDataClearingLease |
