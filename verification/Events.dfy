/** What flows through the call engine: core/events/events.h, statemachine.h and call_status.h. */
module Events {
  import opened Options

  datatype SipType =
    | CallInvite | CallReleased | CallAck | CallClosed
    | RegistrationNew | RegistrationSuccess | RegistrationFailure
    | RegistrationRefreshed | RegistrationTerminated
    | OtherType(code: int)

  datatype SipEvent = SipEvent(kind: SipType, statusCode: int, toUrl: Option<string>, fromUrl: Option<string>,
                               callId: int, dialogId: int, transactionId: int, regId: int)

  predicate IsRegistration(kind: SipType) {
    || kind.RegistrationNew? || kind.RegistrationSuccess? || kind.RegistrationFailure?
    || kind.RegistrationRefreshed? || kind.RegistrationTerminated?
  }

  /** A call_trigger: the event with its parameters. */
  datatype Trigger =
    | InvalidEvent
    | GuiMakeCall(accountId: int, callee: Option<string>, callId: int)
    | GuiEndCall(callId: int)
    | GuiAcceptCall(callId: int)
    | SipReceive(sip: SipEvent)
    | AccountError
    | AccountOk

  predicate IsAccountAnswer(t: Trigger) {
    t.AccountOk? || t.AccountError?
  }

  predicate FromGui(t: Trigger) {
    t.GuiMakeCall? || t.GuiEndCall? || t.GuiAcceptCall?
  }

  datatype State = Initial | Checking | Inviting | Connected | Terminating | Final | Ringing | Connecting

  datatype CallStatus =
    CsTrying | CsRinging | CsAccepted | CsDeclined | CsCancelled | CsUnreachable | CsTerminated

  /** A call into the GUI or the SIP stack; `ok` is whether it returned success. */
  datatype Effect =
    | Status(callId: int, status: CallStatus, ok: bool)
    | IncomingCall(accountId: int, callId: int, ok: bool)
    | UserEvent(accountId: int, ok: bool)
    | Invite(to: Option<string>, from: Option<string>, sipCallId: int)
    | Provisional180(transactionId: int, ok: bool)
    | Ok200(dialogId: int, transactionId: int, ok: bool)
    | Ack(dialogId: int, ok: bool)
    | Cancel(sipCallId: int, dialogId: int, ok: bool)
    | Decline(sipCallId: int, dialogId: int, ok: bool)
    | Bye(sipCallId: int, dialogId: int, ok: bool)

  /** One entry of a call's history: an event it consumed or a call it made. */
  datatype Entry = Saw(trigger: Trigger) | Did(effect: Effect)

  /** What the outside answers during one handler: no handler asks the same question twice. */
  datatype Answers = Answers(
    gui: bool,                              // the GUI callback queue took the message
    stack: bool,                            // the SIP stack call succeeded
    accountValid: bool,                     // am_is_account_valid
    fromAndTo: Option<(string, string)>,    // am_build_from_and_to
    accountFound: bool,                     // am_get_account
    inviteResult: int,                      // sipstack_send_invite
    calleeAccount: int,                     // am_get_account_by_callee_uri
    newCallId: int)                         // cig_generate_call_id
}
