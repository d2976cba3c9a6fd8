/** The client's Slack sign-in (src/services/slackAuth.ts): the popup listener of
    `signInWithPopup` as a state machine driven by window messages and the
    once-a-second poll of `popup.closed`, and the session-storage helpers
    `getStoredSlackUser` and `signOut`. JSON is abstract, with its round trip as a
    law; the window, the timer and the promise become the machine's fields. */
module SlackAuth {
  import opened Wrappers
  import opened AppTypes

  /** The only origin whose messages the listener reads. */
  const TrustedOrigin := "https://us-central1-mizuno-lab-access-control.cloudfunctions.net"
  const SuccessType := "SLACK_AUTH_SUCCESS"
  const ErrorType := "SLACK_AUTH_ERROR"
  const PopupBlockedMessage := "ポップアップがブロックされました。ブラウザの設定を確認してください。"
  const CancelledMessage := "認証がキャンセルされました。"
  const SessionKey := "slackAuthUser"

  /** `JSON.stringify` and `JSON.parse` on users, with `parse` failing as `None`. */
  datatype Json = Json(stringify: Identity -> string, parse: string -> Option<Identity>)

  /** Parsing what was stringified gives the user back, and an object never
      stringifies to the empty text; the text `undefined`, which storing
      `JSON.stringify(undefined)` leaves behind, does not parse. */
  ghost predicate Lawful(json: Json) {
    (forall u :: json.parse(json.stringify(u)) == Some(u) && json.stringify(u) != "") &&
    json.parse("undefined").None?
  }

  /** A window message: its origin and the `type`, `user` and `error` fields of its data. */
  datatype Message = Message(origin: string, msgType: Option<string>, user: Option<Identity>, error: Option<string>)

  /** How the sign-in promise stands: `Idle` before any sign-in has started, then
      pending or settled; a resolved user may be `undefined`. */
  datatype Outcome = Idle | Pending | Resolved(user: Option<Identity>) | Rejected(message: string)

  /** The sign-in's observable state: the promise, whether the message listener and
      the poll are installed, and whether the code has closed the popup. */
  datatype Popup = Popup(outcome: Outcome, listening: bool, polling: bool, closedByCode: bool)

  /** The listener and the poll are installed exactly while the promise is pending. */
  predicate Valid(p: Popup) {
    (p.outcome.Pending? <==> p.listening) && (p.listening <==> p.polling)
  }

  /** The state right after `window.open`: `windowOpened` is false when it returned null. */
  function Start(windowOpened: bool): (p: Popup)
    ensures Valid(p)
    ensures !windowOpened <==> p.outcome == Rejected(PopupBlockedMessage)
    ensures windowOpened <==> p.outcome.Pending?
  {
    if windowOpened then Popup(Pending, true, true, false)
    else Popup(Rejected(PopupBlockedMessage), false, false, false)
  }

  /** The listener receiving `m`. On a trusted success it clears the poll, removes
      itself and closes the popup before storing the user; `storeFails` says that
      `JSON.stringify` or `sessionStorage.setItem` threw there, so the promise is
      never resolved. */
  function Receive(p: Popup, m: Message, storeFails: bool): (q: Popup)
    ensures Valid(p) && !storeFails ==> Valid(q)
    ensures !p.listening || m.origin != TrustedOrigin ==> q == p
    ensures p.listening && m.origin == TrustedOrigin && m.msgType == Some(SuccessType) ==>
              q == Popup(if storeFails then p.outcome else Resolved(m.user), false, false, true)
    ensures p.listening && m.origin == TrustedOrigin && m.msgType == Some(ErrorType) ==>
              q == Popup(Rejected(m.error.GetOr("")), false, false, true)
    ensures m.msgType != Some(SuccessType) && m.msgType != Some(ErrorType) ==> q == p
  {
    if !p.listening || m.origin != TrustedOrigin then p
    else if m.msgType == Some(SuccessType) then
      Popup(if storeFails then p.outcome else Resolved(m.user), false, false, true)
    else if m.msgType == Some(ErrorType) then Popup(Rejected(m.error.GetOr("")), false, false, true)
    else p
  }

  /** One tick of the poll, with `closed` the popup's `closed` flag. */
  function Tick(p: Popup, closed: bool): (q: Popup)
    ensures Valid(p) ==> Valid(q)
    ensures !p.polling || !closed ==> q == p
    ensures Valid(p) && p.polling && closed ==> q.outcome == Rejected(CancelledMessage)
  {
    if p.polling && closed then
      Popup(if p.outcome.Pending? then Rejected(CancelledMessage) else p.outcome, false, false, p.closedByCode)
    else p
  }

  /** Once settled, the outcome never changes again, whatever arrives. */
  lemma SettledIsFinal(p: Popup, m: Message, storeFails: bool, closed: bool)
    requires Valid(p) && !p.outcome.Pending?
    ensures Receive(p, m, storeFails) == p && Tick(p, closed) == p
  {
  }

  /** When storing the user throws, the listener and the poll are already gone: the
      sign-in stays pending and no later message or tick can settle it. */
  lemma StoreFailureStrandsSignIn(m: Message, later: Message, storeFails: bool, closed: bool)
    requires m.origin == TrustedOrigin && m.msgType == Some(SuccessType)
    ensures var q := Receive(Start(true), m, true);
            q.outcome.Pending? && !q.listening && !q.polling && !Valid(q) &&
            Receive(q, later, storeFails) == q && Tick(q, closed) == q
  {
  }

  /** Two messages with the same origin and type lead to outcomes of the same kind:
      the other fields only supply the user or the error text. */
  lemma OutcomeKindByOriginAndType(p: Popup, m1: Message, m2: Message, storeFails: bool)
    requires m1.origin == m2.origin && m1.msgType == m2.msgType
    ensures Receive(p, m1, storeFails).outcome.Pending? == Receive(p, m2, storeFails).outcome.Pending?
    ensures Receive(p, m1, storeFails).outcome.Resolved? == Receive(p, m2, storeFails).outcome.Resolved?
    ensures Receive(p, m1, storeFails).outcome.Rejected? == Receive(p, m2, storeFails).outcome.Rejected?
    ensures Receive(p, m1, storeFails).listening == Receive(p, m2, storeFails).listening
  {
  }

  /** The service's session storage and its helpers. */
  class SlackAuthService {
    var session: map<string, string>
    var popup: Popup

    constructor(session0: map<string, string>)
      ensures session == session0 && popup == Popup(Idle, false, false, false) && Valid(popup)
    {
      session := session0;
      popup := Popup(Idle, false, false, false);
    }

    /** `signInWithPopup()` up to `window.open`. */
    method SignInWithPopup(windowOpened: bool)
      modifies this
      ensures popup == Start(windowOpened) && session == old(session)
    {
      popup := Start(windowOpened);
    }

    /** A window message reaching the listener; a success stores the user before
        resolving, and `storeFails` says that storing threw. */
    method OnMessage(json: Json, m: Message, storeFails: bool)
      modifies this
      ensures popup == Receive(old(popup), m, storeFails)
      ensures var stores := old(popup).listening && m.origin == TrustedOrigin && m.msgType == Some(SuccessType) && !storeFails;
              session == if stores then old(session)[SessionKey := if m.user.Some? then json.stringify(m.user.value) else "undefined"]
                         else old(session)
      ensures Valid(old(popup)) && !storeFails ==> Valid(popup)
      ensures popup.outcome.Resolved? && !old(popup).outcome.Resolved? ==> SessionKey in session
    {
      var next := Receive(popup, m, storeFails);
      if popup.listening && m.origin == TrustedOrigin && m.msgType == Some(SuccessType) && !storeFails {
        session := session[SessionKey := if m.user.Some? then json.stringify(m.user.value) else "undefined"];
      }
      popup := next;
    }

    /** One tick of the close poll. */
    method OnPoll(closed: bool)
      modifies this
      ensures popup == Tick(old(popup), closed) && session == old(session)
      ensures Valid(old(popup)) ==> Valid(popup)
    {
      popup := Tick(popup, closed);
    }

    /** `getStoredSlackUser()`. */
    method GetStoredSlackUser(json: Json) returns (user: Option<Identity>)
      ensures SessionKey !in session ==> user.None?
      ensures SessionKey in session && session[SessionKey] == "" ==> user.None?
      ensures SessionKey in session && session[SessionKey] != "" ==> user == json.parse(session[SessionKey])
    {
      if SessionKey in session && session[SessionKey] != "" {
        user := json.parse(session[SessionKey]);
      } else {
        user := None;
      }
    }

    /** `signOut()`. */
    method SignOut()
      modifies this
      ensures session == old(session) - {SessionKey} && popup == old(popup)
    {
      session := session - {SessionKey};
    }
  }

  /** The sign-in round trip: after a trusted success message carrying a user, the
      stored user reads back as that user, and signing out forgets it. */
  method SignInRoundTrip(json: Json, u: Identity, session0: map<string, string>) returns (stored: Option<Identity>, afterSignOut: Option<Identity>)
    requires Lawful(json)
    ensures stored == Some(u)
    ensures afterSignOut.None?
  {
    var service := new SlackAuthService(session0);
    service.SignInWithPopup(true);
    service.OnMessage(json, Message(TrustedOrigin, Some(SuccessType), Some(u), None), false);
    assert json.parse(json.stringify(u)) == Some(u) && json.stringify(u) != "";
    stored := service.GetStoredSlackUser(json);
    service.SignOut();
    afterSignOut := service.GetStoredSlackUser(json);
  }
}
