/**
 The handlers of core/events/statemachine.c as functions on the value of one machine.

 `trace` and `path` record what the machine has done; no handler reads them.
 */
module CallMachine {
  import opened Options
  import opened Transactions
  import opened Events

  datatype Machine = Machine(state: State, info: CallInfo, failed: bool, trace: seq<Entry>, path: seq<State>)

  /** A machine before its first event: an empty transaction table, all else unset. */
  predicate Fresh(m: Machine) {
    && m.state == Initial && !m.failed && m.trace == [] && m.path == [Initial]
    && |m.info.transactions| == MAX_TRANSACTION_COUNT
    && forall i :: 0 <= i < MAX_TRANSACTION_COUNT ==> m.info.transactions[i].id == -1
  }

  // ---------------------------------------------------------------- the three ways a handler ends

  function Record(m: Machine, effect: Effect): Machine {
    m.(trace := m.trace + [Did(effect)])
  }

  function Fail(m: Machine): Machine {
    m.(failed := true)
  }

  function GoTo(m: Machine, state: State): Machine {
    m.(state := state, path := m.path + [state])
  }

  /** Make a call; go to the state if it succeeded and fail otherwise. */
  function Try(m: Machine, effect: Effect, ok: bool, state: State): Machine {
    var m := Record(m, effect);
    if ok then GoTo(m, state) else Fail(m)
  }

  // ---------------------------------------------------------------- the handlers

  /** The machine, and the pseudo event that checking.OnEntry puts into the machine's own pool. */
  datatype Outcome = Outcome(m: Machine, posted: Option<Trigger>)

  function InitialState(m: Machine, t: Trigger, a: Answers, room: bool): Outcome {
    match t
    case GuiMakeCall(accountId, callee, callId) => MakeCall(m, accountId, callee, callId, a, room)
    case SipReceive(e) =>
      if e.kind != CallInvite then Outcome(m, None) else Outcome(IncomingInvite(m, e, a), None)
    case _ => Outcome(m, None)
  }

  function MakeCall(m: Machine, accountId: int, callee: Option<string>, callId: int, a: Answers, room: bool): Outcome {
    var info := m.info.(accountId := accountId, callId := callId);
    if callee.None? then
      Outcome(Fail(m.(info := info)), None)
    else
      var built := if a.accountValid then a.fromAndTo else None;
      var from := if built.Some? then Some(built.value.0) else None;
      var to := if built.Some? then Some(built.value.1) else None;
      var m := m.(info := info.(callee := callee, caller := None, sipCallId := 0, dialogId := 0, from := from,
                                to := to));
      if room then Outcome(GoTo(m, Checking), Some(if built.Some? then AccountOk else AccountError))
      else Outcome(Fail(m), None)
  }

  function IncomingInvite(m: Machine, e: SipEvent, a: Answers): Machine {
    var accountId := if e.toUrl.None? then -1 else a.calleeAccount;
    var info := m.info.(accountId := accountId);
    if accountId == -1 || e.fromUrl.None? then
      Fail(m.(info := info))
    else
      var info := info.(callId := a.newCallId, callee := e.toUrl, caller := e.fromUrl, sipCallId := e.callId,
                        dialogId := e.dialogId, from := None, to := None);
      var added := Contains(info.transactions, -1);
      var m := m.(info := info.(transactions := Add(info.transactions, e.transactionId, INVITE_TRANSACTION)));
      if !added then Fail(m)
      else
        var m := Record(m, IncomingCall(accountId, a.newCallId, a.gui));
        if !a.gui then Fail(m) else RingingOnEntry(m, a)
  }

  function RingingOnEntry(m: Machine, a: Answers): Machine {
    var id := FindByType(m.info.transactions, INVITE_TRANSACTION);
    if id == -1 then Fail(m) else Try(m, Provisional180(id, a.stack), a.stack, Ringing)
  }

  function CheckingState(m: Machine, t: Trigger, a: Answers): Machine {
    match t
    case AccountOk =>
      if !a.accountFound then Fail(m)
      else
        var m := Record(m, Invite(m.info.to, m.info.from, a.inviteResult));
        if a.inviteResult == -1 then Fail(m)
        else GoTo(m.(info := m.info.(sipCallId := a.inviteResult)), Inviting)
    case AccountError => Try(m, UserEvent(m.info.accountId, a.gui), a.gui, Terminating)
    case _ => m
  }

  function Tell(m: Machine, status: CallStatus, a: Answers, state: State): Machine {
    Try(m, Status(m.info.callId, status, a.gui), a.gui, state)
  }

  function InvitingState(m: Machine, t: Trigger, a: Answers): Machine {
    match t
    case SipReceive(e) =>
      var (table, dialogId) :=
        Update(m.info.transactions, m.info.dialogId, e.transactionId, INVITE_TRANSACTION, e.dialogId);
      Response(m.(info := m.info.(transactions := table, dialogId := dialogId)), e, a)
    case GuiEndCall(_) =>
      if m.info.dialogId > 0
      then Try(m, Cancel(m.info.sipCallId, m.info.dialogId, a.stack), a.stack, Terminating)
      else GoTo(m, Terminating)
    case _ => m
  }

  function Response(m: Machine, e: SipEvent, a: Answers): Machine {
    if e.kind == CallReleased then Tell(m, CsUnreachable, a, Terminating)
    else if 100 <= e.statusCode <= 199 then
      var m := Record(m, Status(m.info.callId, if e.statusCode == 180 then CsRinging else CsTrying, a.gui));
      if a.gui then m else Fail(m)
    else if 200 <= e.statusCode <= 299 then
      var m := Record(m, Ack(m.info.dialogId, a.stack));
      if a.stack then Tell(m, CsAccepted, a, Connected) else Fail(m)
    else if 300 <= e.statusCode <= 699 then Tell(m, CsDeclined, a, Terminating)
    else m
  }

  /** eXosip reports a CANCEL as CALL_CLOSED with status code 487. */
  predicate IsCancel(e: SipEvent) {
    e.kind == CallClosed && e.statusCode == 487
  }

  function AnswerCall(m: Machine, a: Answers): Machine {
    var id := FindByType(m.info.transactions, INVITE_TRANSACTION);
    if id == -1 then Fail(m)
    else Try(m, Ok200(m.info.dialogId, id, a.stack), a.stack, Connecting)
  }

  function DeclineCall(m: Machine, a: Answers): Machine {
    Try(m, Decline(m.info.sipCallId, m.info.dialogId, a.stack), a.stack, Terminating)
  }

  function RingingState(m: Machine, t: Trigger, a: Answers): Machine {
    match t
    case GuiAcceptCall(_) => AnswerCall(m, a)
    case GuiEndCall(_) => DeclineCall(m, a)
    case SipReceive(e) => if IsCancel(e) then Tell(m, CsCancelled, a, Terminating) else m
    case _ => m
  }

  function ConnectingState(m: Machine, t: Trigger, a: Answers): Machine {
    match t
    case GuiAcceptCall(_) => AnswerCall(m, a)
    case GuiEndCall(_) => DeclineCall(m, a)
    case SipReceive(e) =>
      if e.kind == CallAck then Tell(m, CsAccepted, a, Connected)
      else if IsCancel(e) then Tell(m, CsCancelled, a, Terminating)
      else m
    case _ => m
  }

  function ConnectedState(m: Machine, t: Trigger, a: Answers): Machine {
    match t
    case GuiEndCall(_) => Try(m, Bye(m.info.sipCallId, m.info.dialogId, a.stack), a.stack, Terminating)
    case SipReceive(e) =>
      if e.kind != CallClosed then m
      else
        var (table, dialogId) :=
          Update(m.info.transactions, m.info.dialogId, e.transactionId, BYE_TRANSACTION, e.dialogId);
        var m := m.(info := m.info.(transactions := table, dialogId := dialogId));
        if FindByType(table, BYE_TRANSACTION) == -1 then Fail(m) else GoTo(m, Terminating)
    case _ => m
  }

  function TerminatingState(m: Machine, a: Answers): Machine {
    Tell(m, CsTerminated, a, Final)
  }

  predicate Stopped(m: Machine) {
    m.failed || m.state == Final
  }

  /** One pass of the switch in sm_start; TERMINATING consumes no event. */
  function Step(m: Machine, t: Trigger, a: Answers, room: bool): Outcome {
    if Stopped(m) then Outcome(m, None)
    else if m.state == Terminating then Outcome(TerminatingState(m, a), None)
    else Consume(m.(trace := m.trace + [Saw(t)]), t, a, room)
  }

  function Consume(m: Machine, t: Trigger, a: Answers, room: bool): Outcome {
    match m.state
    case Initial => InitialState(m, t, a, room)
    case Checking => Outcome(CheckingState(m, t, a), None)
    case Inviting => Outcome(InvitingState(m, t, a), None)
    case Ringing => Outcome(RingingState(m, t, a), None)
    case Connecting => Outcome(ConnectingState(m, t, a), None)
    case Connected => Outcome(ConnectedState(m, t, a), None)
    case _ => Outcome(m, None)
  }

  // ---------------------------------------------------------------- runs

  datatype Input = Input(trigger: Trigger, answers: Answers, room: bool)

  /** The machine after any sequence of events and answers. */
  function Run(m: Machine, inputs: seq<Input>): Machine
    decreases |inputs|
  {
    if inputs == [] then m
    else
      var i := inputs[|inputs| - 1];
      Step(Run(m, inputs[..|inputs| - 1]), i.trigger, i.answers, i.room).m
  }
}
