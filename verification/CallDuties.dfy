/**
 What one call must do, on every run: which messages each event leads to, with which IDs, and which state follows.
 The IDs are those of the event by which the call began and of the INVITE and the ACK that were sent.
 */
module CallDuties {
  import opened Options
  import opened Transactions
  import opened Events
  import opened CallMachine
  import opened CallSafety
  import opened CallRuns
  import opened CallSlots

  /** The input by which the machine left INITIAL. */
  function Beginning(m: Machine, inputs: seq<Input>): Option<Input>
    decreases |inputs|
  {
    if inputs == [] then None
    else
      var b := Beginning(m, inputs[..|inputs| - 1]);
      if b.Some? then b
      else if Run(m, inputs).state != Initial then Some(inputs[|inputs| - 1])
      else None
  }

  /** The From and To addresses built for the account of an outgoing call, if it was valid. */
  function Built(a: Answers): Option<(string, string)> {
    if a.accountValid then a.fromAndTo else None
  }

  /** The INVITE of an outgoing call that has been given this SIP call ID is in the history. */
  predicate Invited(h: seq<Entry>, a: Answers, sipCallId: int) {
    var to := if Built(a).Some? then Some(Built(a).value.1) else None;
    var from := if Built(a).Some? then Some(Built(a).value.0) else None;
    Did(Invite(to, from, sipCallId)) in h
  }

  /** What the record of the call holds. */
  ghost predicate Remembers(r: Machine, b: Option<Input>) {
    match b
    case None => r.state == Initial
    case Some(x) =>
      match x.trigger
      case GuiMakeCall(accountId, callee, callId) => callee.Some? && RemembersCaller(r, accountId, callId, x.answers)
      case SipReceive(e) => e.kind == CallInvite && RemembersCallee(r, e, x.answers)
      case _ => false
  }

  ghost predicate RemembersCaller(r: Machine, accountId: int, callId: int, a: Answers) {
    && r.state != Initial && r.state != Ringing && r.state != Connecting
    && r.info.accountId == accountId && r.info.callId == callId
    && (r.state == Checking ==>
          && r.info.from == (if Built(a).Some? then Some(Built(a).value.0) else None)
          && r.info.to == (if Built(a).Some? then Some(Built(a).value.1) else None))
    && (r.state == Inviting || r.state == Connected ==> Invited(r.trace, a, r.info.sipCallId))
    && (r.state == Connected && !r.failed ==> Did(Ack(r.info.dialogId, true)) in r.trace)
  }

  ghost predicate RemembersCallee(r: Machine, e: SipEvent, a: Answers) {
    && r.state != Initial && r.state != Checking && r.state != Inviting
    && r.info.accountId == a.calleeAccount && r.info.callId == a.newCallId
    && (r.state == Ringing || r.state == Connecting || (r.state == Connected && !r.failed) ==>
          r.info.sipCallId == e.callId && r.info.dialogId == e.dialogId)
    && (r.state == Ringing || r.state == Connecting ==>
          e.transactionId != -1 && Live(r.info.transactions) == [Transaction(e.transactionId, INVITE_TRANSACTION)])
  }

  function Begins(r: Machine, b: Option<Input>, x: Input): Option<Input> {
    if b.Some? then b else if Step(r, x.trigger, x.answers, x.room).m.state != Initial then Some(x) else None
  }

  lemma StepRemembers(r: Machine, b: Option<Input>, x: Input)
    requires Inv(r) && Remembers(r, b)
    ensures Remembers(Step(r, x.trigger, x.answers, x.room).m, Begins(r, b, x))
  {
    if !Stopped(r) {
      match r.state
      case Initial => InitialRemembers(r, x);
      case Checking => CheckingRemembers(r, b.value, x);
      case Inviting => InvitingRemembers(r, b.value, x);
      case Ringing => RingingRemembers(r, b.value, x);
      case Connecting => RingingRemembers(r, b.value, x);
      case Connected => ConnectedRemembers(r, b.value, x);
      case Terminating =>
    }
  }

  lemma InitialRemembers(r: Machine, x: Input)
    requires Inv(r) && !r.failed && r.state == Initial
    ensures Remembers(Step(r, x.trigger, x.answers, x.room).m, Begins(r, None, x))
  {
    if x.trigger.SipReceive? && x.trigger.sip.kind == CallInvite {
      FirstEntry(r.info.transactions, x.trigger.sip.transactionId);
    }
  }

  lemma CheckingRemembers(r: Machine, b: Input, x: Input)
    requires !Stopped(r) && r.state == Checking && Remembers(r, Some(b))
    ensures Remembers(Step(r, x.trigger, x.answers, x.room).m, Some(b))
  {
  }

  lemma InvitingRemembers(r: Machine, b: Input, x: Input)
    requires !Stopped(r) && r.state == Inviting && Remembers(r, Some(b))
    ensures Remembers(Step(r, x.trigger, x.answers, x.room).m, Some(b))
  {
  }

  lemma RingingRemembers(r: Machine, b: Input, x: Input)
    requires !Stopped(r) && r.state in {Ringing, Connecting} && Remembers(r, Some(b))
    ensures Remembers(Step(r, x.trigger, x.answers, x.room).m, Some(b))
  {
  }

  lemma ConnectedRemembers(r: Machine, b: Input, x: Input)
    requires !Stopped(r) && r.state == Connected && Remembers(r, Some(b))
    ensures Remembers(Step(r, x.trigger, x.answers, x.room).m, Some(b))
  {
  }

  lemma {:induction false} RunRemembers(m: Machine, inputs: seq<Input>)
    requires Fresh(m)
    ensures Inv(Run(m, inputs)) && Remembers(Run(m, inputs), Beginning(m, inputs))
    decreases |inputs|
  {
    RunKeeps(m, inputs);
    if inputs != [] {
      var before, x := inputs[..|inputs| - 1], inputs[|inputs| - 1];
      RunRemembers(m, before);
      StepRemembers(Run(m, before), Beginning(m, before), x);
    }
  }

  // ---------------------------------------------------------------- INITIAL and CHECKING

  /** Only a call from the GUI or an INVITE gets a machine out of INITIAL; anything else is passed over. */
  lemma InitialDuties(m: Machine, inputs: seq<Input>, t: Trigger, a: Answers, room: bool)
    requires Fresh(m)
    requires var r := Run(m, inputs); r.state == Initial && !r.failed
    ensures var r := Run(m, inputs);
            var o := Step(r, t, a, room);
            var seen := r.trace + [Saw(t)];
            && (t.GuiMakeCall? ==>
                  && o.m.trace == seen
                  && (o.m.state == Checking <==> t.callee.Some? && room) && (o.m.failed <==> t.callee.None? || !room)
                  && o.posted == (if t.callee.None? || !room then None
                                  else if a.accountValid && a.fromAndTo.Some? then Some(AccountOk)
                                  else Some(AccountError)))
            && (t.SipReceive? && t.sip.kind == CallInvite ==> IncomingDuties(r, t.sip, a, o))
            && (!t.GuiMakeCall? && !(t.SipReceive? && t.sip.kind == CallInvite) ==>
                  o.m == r.(trace := seen) && o.posted == None)
  {
    RunKeeps(m, inputs);
    if t.SipReceive? && t.sip.kind == CallInvite {
      FirstEntry(Run(m, inputs).info.transactions, t.sip.transactionId);
    }
  }

  /**
   An INVITE for one of our accounts is shown to the GUI under the new call ID and then answered with 180 in its own
   transaction; RINGING is entered exactly if both succeed.
   */
  predicate IncomingDuties(r: Machine, e: SipEvent, a: Answers, o: Outcome) {
    var seen := r.trace + [Saw(SipReceive(e))];
    var shown := seen + [Did(IncomingCall(a.calleeAccount, a.newCallId, a.gui))];
    var ours := e.toUrl.Some? && a.calleeAccount != -1 && e.fromUrl.Some?;
    var rings := ours && a.gui && e.transactionId != -1;
    && o.posted == None
    && o.m.trace == (if rings then shown + [Did(Provisional180(e.transactionId, a.stack))]
                     else if ours then shown else seen)
    && (o.m.state == Ringing <==> rings && a.stack) && (o.m.failed <==> !(rings && a.stack))
  }

  /** What is kept of the event by which a call begins. */
  lemma BeginningIsStored(m: Machine, inputs: seq<Input>, t: Trigger, a: Answers, room: bool)
    requires Fresh(m)
    requires var r := Run(m, inputs); r.state == Initial && !r.failed && Step(r, t, a, room).m.state != Initial
    ensures var info := Step(Run(m, inputs), t, a, room).m.info;
            && (t.GuiMakeCall? || (t.SipReceive? && t.sip.kind == CallInvite))
            && (t.GuiMakeCall? ==>
                  && info.callee == t.callee && info.caller == None && info.sipCallId == 0 && info.dialogId == 0
                  && info.accountId == t.accountId && info.callId == t.callId)
            && (t.SipReceive? ==>
                  && info.callee == t.sip.toUrl && info.caller == t.sip.fromUrl && info.sipCallId == t.sip.callId
                  && info.dialogId == t.sip.dialogId && info.accountId == a.calleeAccount && info.callId == a.newCallId)
  {
  }

  /** The INVITE goes from the calling account to the callee, once its account was found valid. */
  lemma CheckingDuties(m: Machine, inputs: seq<Input>, t: Trigger, a: Answers, room: bool)
    requires Fresh(m)
    requires var r := Run(m, inputs); r.state == Checking && !r.failed
    ensures var r := Run(m, inputs);
            var next := Step(r, t, a, room).m;
            var seen := r.trace + [Saw(t)];
            Beginning(m, inputs).Some? && Beginning(m, inputs).value.trigger.GuiMakeCall? &&
            var began := Beginning(m, inputs).value;
            var built := began.answers.fromAndTo;
            var valid := began.answers.accountValid && built.Some?;
            var from := if valid then Some(built.value.0) else None;
            var to := if valid then Some(built.value.1) else None;
            && (t == AccountOk ==>
                  && next.trace == (if a.accountFound then seen + [Did(Invite(to, from, a.inviteResult))] else seen)
                  && (next.state == Inviting <==> a.accountFound && a.inviteResult != -1)
                  && (next.failed <==> !(a.accountFound && a.inviteResult != -1)))
            && (t == AccountError ==>
                  && next.trace == seen + [Did(UserEvent(began.trigger.accountId, a.gui))]
                  && (next.state == Terminating <==> a.gui) && (next.failed <==> !a.gui))
            && (t != AccountOk && t != AccountError ==> next == r.(trace := seen))
  {
    RunRemembers(m, inputs);
  }

  // ---------------------------------------------------------------- INVITING

  /** What the GUI is told of a response, if anything. */
  lemma ResponseDuties(m: Machine, inputs: seq<Input>, e: SipEvent, a: Answers, room: bool)
    requires Fresh(m)
    requires var r := Run(m, inputs); r.state == Inviting && !r.failed
    requires e.kind == CallReleased || e.statusCode < 200 || e.statusCode > 299
    ensures var r := Run(m, inputs);
            var next := Step(r, SipReceive(e), a, room).m;
            var seen := r.trace + [Saw(SipReceive(e))];
            Beginning(m, inputs).Some? && Beginning(m, inputs).value.trigger.GuiMakeCall? &&
            var callId := Beginning(m, inputs).value.trigger.callId;
            && (e.kind == CallReleased ==> TellsAndEnds(seen, Status(callId, CsUnreachable, a.gui), a.gui, next))
            && (e.kind != CallReleased && 100 <= e.statusCode <= 199 ==>
                  && next.trace == seen + [Did(Status(callId, if e.statusCode == 180 then CsRinging else CsTrying,
                                                      a.gui))]
                  && next.state == Inviting && (next.failed <==> !a.gui))
            && (e.kind != CallReleased && 300 <= e.statusCode <= 699 ==>
                  TellsAndEnds(seen, Status(callId, CsDeclined, a.gui), a.gui, next))
            && (e.kind != CallReleased && (e.statusCode < 100 || e.statusCode > 699) ==>
                  next.trace == seen && next.state == Inviting && !next.failed)
  {
    RunRemembers(m, inputs);
  }

  /** One call is made, and the state is TERMINATING exactly if it succeeded; otherwise the machine fails. */
  predicate TellsAndEnds(seen: seq<Entry>, e: Effect, ok: bool, next: Machine) {
    next.trace == seen + [Did(e)] && (next.state == Terminating <==> ok) && (next.failed <==> !ok)
  }

  /** A 2xx is acknowledged in the dialog of the latest response with one, then reported. */
  lemma SuccessDuties(m: Machine, inputs: seq<Input>, e: SipEvent, a: Answers, room: bool)
    requires Fresh(m)
    requires var r := Run(m, inputs); r.state == Inviting && !r.failed
    requires e.kind != CallReleased && 200 <= e.statusCode <= 299
    ensures var r := Run(m, inputs);
            var next := Step(r, SipReceive(e), a, room).m;
            Beginning(m, inputs).Some? && Beginning(m, inputs).value.trigger.GuiMakeCall? &&
            var callId := Beginning(m, inputs).value.trigger.callId;
            && (exists dialogId :: LatestDialog(Responses(r.trace) + [e], dialogId) &&
                  var acked := r.trace + [Saw(SipReceive(e))] + [Did(Ack(dialogId, a.stack))];
                  next.trace == if a.stack then acked + [Did(Status(callId, CsAccepted, a.gui))] else acked)
            && (next.state == Connected <==> a.stack && a.gui) && (next.failed <==> !(a.stack && a.gui))
  {
    RunRemembers(m, inputs);
    DialogTracking(m, inputs);
    var r := Run(m, inputs);
    UpdateTracks(r.info.transactions, r.info.dialogId, Responses(r.trace), e);
  }

  /** Hanging up while the INVITE is open cancels it if a dialog is known, and otherwise just ends the call. */
  lemma HangUpWhileInviting(m: Machine, inputs: seq<Input>, callId: int, a: Answers, room: bool)
    requires Fresh(m)
    requires var r := Run(m, inputs); r.state == Inviting && !r.failed
    ensures var r := Run(m, inputs);
            var next := Step(r, GuiEndCall(callId), a, room).m;
            var seen := r.trace + [Saw(GuiEndCall(callId))];
            Beginning(m, inputs).Some? && Beginning(m, inputs).value.trigger.GuiMakeCall? &&
            exists dialogId, sipCallId ::
              && LatestDialog(Responses(r.trace), dialogId)
              && Invited(r.trace, Beginning(m, inputs).value.answers, sipCallId)
              && Withdraws(seen, sipCallId, dialogId, a.stack, next)
  {
    RunRemembers(m, inputs);
    DialogTracking(m, inputs);
    var r := Run(m, inputs);
    HangUpStep(r, callId, a, room);
    assert LatestDialog(Responses(r.trace), r.info.dialogId);
    assert Invited(r.trace, Beginning(m, inputs).value.answers, r.info.sipCallId);
  }

  predicate Withdraws(seen: seq<Entry>, sipCallId: int, dialogId: int, ok: bool, next: Machine) {
    if dialogId > 0 then TellsAndEnds(seen, Cancel(sipCallId, dialogId, ok), ok, next)
    else next.trace == seen && next.state == Terminating && !next.failed
  }

  lemma HangUpStep(r: Machine, callId: int, a: Answers, room: bool)
    requires r.state == Inviting && !r.failed
    ensures Withdraws(r.trace + [Saw(GuiEndCall(callId))], r.info.sipCallId, r.info.dialogId, a.stack,
                      Step(r, GuiEndCall(callId), a, room).m)
  {
  }

  // ---------------------------------------------------------------- RINGING and CONNECTING

  /** Accepting sends 200 in the transaction and dialog of the INVITE that began the call. */
  lemma AcceptDuties(m: Machine, inputs: seq<Input>, callId: int, a: Answers, room: bool)
    requires Fresh(m)
    requires var r := Run(m, inputs); (r.state == Ringing || r.state == Connecting) && !r.failed
    ensures var r := Run(m, inputs);
            var next := Step(r, GuiAcceptCall(callId), a, room).m;
            Beginning(m, inputs).Some? && Beginning(m, inputs).value.trigger.SipReceive? &&
            var e := Beginning(m, inputs).value.trigger.sip;
            && e.kind == CallInvite
            && next.trace == r.trace + [Saw(GuiAcceptCall(callId))] + [Did(Ok200(e.dialogId, e.transactionId, a.stack))]
            && next.state == (if a.stack then Connecting else r.state) && (next.failed <==> !a.stack)
  {
    RunRemembers(m, inputs);
    FindIsEarliest(Run(m, inputs).info.transactions, INVITE_TRANSACTION);
  }

  /** Hanging up before the ACK declines the call that was offered. */
  lemma HangUpWhileRinging(m: Machine, inputs: seq<Input>, callId: int, a: Answers, room: bool)
    requires Fresh(m)
    requires var r := Run(m, inputs); (r.state == Ringing || r.state == Connecting) && !r.failed
    ensures var r := Run(m, inputs);
            var next := Step(r, GuiEndCall(callId), a, room).m;
            Beginning(m, inputs).Some? && Beginning(m, inputs).value.trigger.SipReceive? &&
            var e := Beginning(m, inputs).value.trigger.sip;
            && e.kind == CallInvite
            && TellsAndEnds(r.trace + [Saw(GuiEndCall(callId))], Decline(e.callId, e.dialogId, a.stack), a.stack, next)
  {
    RunRemembers(m, inputs);
  }

  /** A CANCEL ends the call; an ACK connects it once it was accepted. Other SIP events change nothing. */
  lemma CalleeSipDuties(m: Machine, inputs: seq<Input>, e: SipEvent, a: Answers, room: bool)
    requires Fresh(m)
    requires var r := Run(m, inputs); (r.state == Ringing || r.state == Connecting) && !r.failed
    ensures var r := Run(m, inputs);
            var next := Step(r, SipReceive(e), a, room).m;
            var seen := r.trace + [Saw(SipReceive(e))];
            Beginning(m, inputs).Some? &&
            var callId := Beginning(m, inputs).value.answers.newCallId;
            var acked := r.state == Connecting && e.kind == CallAck;
            var cancelled := e.kind == CallClosed && e.statusCode == 487;
            && (cancelled ==> TellsAndEnds(seen, Status(callId, CsCancelled, a.gui), a.gui, next))
            && (acked ==>
                  && next.trace == seen + [Did(Status(callId, CsAccepted, a.gui))]
                  && next.state == (if a.gui then Connected else Connecting) && (next.failed <==> !a.gui))
            && (!cancelled && !acked ==> next == r.(trace := seen))
  {
    RunRemembers(m, inputs);
  }

  // ---------------------------------------------------------------- CONNECTED and TERMINATING

  /** Hanging up a call sends one BYE, in the dialog that the ACK or the INVITE of the other side was in. */
  lemma HangUpWhileConnected(m: Machine, inputs: seq<Input>, callId: int, a: Answers, room: bool)
    requires Fresh(m)
    requires var r := Run(m, inputs); r.state == Connected && !r.failed
    ensures var r := Run(m, inputs);
            var next := Step(r, GuiEndCall(callId), a, room).m;
            var seen := r.trace + [Saw(GuiEndCall(callId))];
            Beginning(m, inputs).Some? &&
            var began := Beginning(m, inputs).value;
            && (began.trigger.SipReceive? ==>
                  TellsAndEnds(seen, Bye(began.trigger.sip.callId, began.trigger.sip.dialogId, a.stack), a.stack, next))
            && (!began.trigger.SipReceive? ==>
                  exists sipCallId, dialogId ::
                    && Invited(r.trace, began.answers, sipCallId) && Did(Ack(dialogId, true)) in r.trace
                    && TellsAndEnds(seen, Bye(sipCallId, dialogId, a.stack), a.stack, next))
  {
    RunRemembers(m, inputs);
  }

  /** The other side's BYE is answered by the stack; here it only ends the call (see ByeEndsCallIff). */
  lemma ConnectedDuties(m: Machine, inputs: seq<Input>, t: Trigger, a: Answers, room: bool)
    requires Fresh(m)
    requires var r := Run(m, inputs); r.state == Connected && !r.failed && !t.GuiEndCall?
    ensures var r := Run(m, inputs);
            var next := Step(r, t, a, room).m;
            && next.trace == r.trace + [Saw(t)]
            && (!(t.SipReceive? && t.sip.kind == CallClosed) ==> next == r.(trace := r.trace + [Saw(t)]))
  {
  }

  /** The other side's BYE ends the call while fewer than ten transactions are known and this one is new. */
  lemma RemoteByeDuties(m: Machine, inputs: seq<Input>, e: SipEvent, a: Answers, room: bool)
    requires Fresh(m)
    requires var r := Run(m, inputs); r.state == Connected && !r.failed && e.kind == CallClosed
    ensures var live := Live(Run(m, inputs).info.transactions);
            var next := Step(Run(m, inputs), SipReceive(e), a, room).m;
            && |live| <= 10
            && (next.state == Terminating <==> e.transactionId >= 1 && e.transactionId !in Ids(live) && |live| < 10)
            && (next.failed <==> next.state != Terminating)
  {
    ByeEndsCallIff(m, inputs, e, a, room);
    TableOnRuns(m, inputs, INVITE_TRANSACTION);
  }

  /** The last thing a call does is to report its end, under the call ID it was known by; no event is taken for that. */
  lemma TerminatingDuties(m: Machine, inputs: seq<Input>, t: Trigger, a: Answers, room: bool)
    requires Fresh(m)
    requires var r := Run(m, inputs); r.state == Terminating && !r.failed
    ensures var r := Run(m, inputs);
            var next := Step(r, t, a, room).m;
            Beginning(m, inputs).Some? &&
            var began := Beginning(m, inputs).value;
            var callId := if began.trigger.GuiMakeCall? then began.trigger.callId else began.answers.newCallId;
            && next.trace == r.trace + [Did(Status(callId, CsTerminated, a.gui))]
            && (next.state == Final <==> a.gui) && (next.failed <==> !a.gui)
  {
    RunRemembers(m, inputs);
  }

  /** Events that have no meaning in a state leave all but the history as it is. */
  lemma OtherEventsIgnored(m: Machine, inputs: seq<Input>, t: Trigger, a: Answers, room: bool)
    requires Fresh(m) && !t.SipReceive? && !t.GuiEndCall?
    requires var r := Run(m, inputs);
             && !r.failed
             && (r.state == Inviting || ((r.state == Ringing || r.state == Connecting) && !t.GuiAcceptCall?))
    ensures var r := Run(m, inputs); Step(r, t, a, room).m == r.(trace := r.trace + [Saw(t)])
  {
  }

  /** Only leaving INITIAL posts an event; a machine that has failed or is over does nothing more. */
  lemma OnlyInitialPosts(m: Machine, inputs: seq<Input>, t: Trigger, a: Answers, room: bool)
    requires Fresh(m)
    ensures var r := Run(m, inputs);
            && (r.state != Initial ==> Step(r, t, a, room).posted == None)
            && (r.failed || r.state == Final ==> Step(r, t, a, room).m == r)
  {
  }

  // ---------------------------------------------------------------- the inner loop of sm_start

  lemma {:induction false} RunGoesOn(m: Machine, x: Input, rest: seq<Input>)
    ensures Run(m, [x] + rest) == Run(Step(m, x.trigger, x.answers, x.room).m, rest)
    decreases |rest|
  {
    var inputs := [x] + rest;
    if rest == [] {
      assert inputs[..0] == [];
    } else {
      var before := rest[..|rest| - 1];
      assert inputs[..|inputs| - 1] == [x] + before;
      RunGoesOn(m, x, before);
    }
  }

  /** The loop is a run of the machine, so all that holds of runs holds of it. */
  lemma {:induction false} DrainIsRun(m: Machine, pool: seq<Trigger>, capacity: nat, answers: nat -> Answers, k: nat,
                                      doShutdown: bool) returns (inputs: seq<Input>)
    ensures Drain(m, pool, capacity, answers, k, doShutdown).m == Run(m, inputs)
    ensures doShutdown ==> |inputs| <= 1
    decreases Remaining(m, pool)
  {
    inputs := [];
    if KeepsLooping(m, pool) {
      PassDecreases(m, pool, capacity, answers(k));
      var (m', pool') := Pass(m, pool, capacity, answers(k));
      var x := if m.state == Terminating then Input(InvalidEvent, answers(k), false)
               else Input(pool[0], answers(k), |pool| - 1 < capacity);
      var rest := [];
      if !doShutdown { rest := DrainIsRun(m', pool', capacity, answers, k + 1, doShutdown); }
      inputs := [x] + rest;
      RunGoesOn(m, x, rest);
    }
  }

  /** It handles the events of the pool in order, and none is lost: what INITIAL posts comes last. */
  lemma {:induction false} DrainIsFifo(m: Machine, pool: seq<Trigger>, capacity: nat, answers: nat -> Answers, k: nat,
                                       doShutdown: bool) returns (posted: seq<Trigger>)
    ensures var d := Drain(m, pool, capacity, answers, k, doShutdown);
            Seen(d.m.trace) + d.pool == Seen(m.trace) + pool + posted
    ensures |posted| <= 1 && (m.state != Initial ==> posted == [])
    decreases Remaining(m, pool)
  {
    posted := [];
    if KeepsLooping(m, pool) {
      PassDecreases(m, pool, capacity, answers(k));
      var (m', pool') := Pass(m, pool, capacity, answers(k));
      var first := PassIsFifo(m, pool, capacity, answers(k));
      var rest := [];
      if !doShutdown { rest := DrainIsFifo(m', pool', capacity, answers, k + 1, doShutdown); }
      assert Seen(m.trace) + pool + first + rest == Seen(m.trace) + pool + (first + rest);
      posted := first + rest;
    }
  }

  lemma PassIsFifo(m: Machine, pool: seq<Trigger>, capacity: nat, a: Answers) returns (posted: seq<Trigger>)
    requires KeepsLooping(m, pool)
    ensures var (m', pool') := Pass(m, pool, capacity, a);
            && Seen(m'.trace) + pool' == Seen(m.trace) + pool + posted
            && |posted| <= 1 && (posted != [] ==> m.state == Initial && m'.state != Initial)
            && (m.state != Initial ==> m'.state != Initial)
  {
    posted := [];
    if m.state == Terminating {
      StepSeen(m, InvalidEvent, a, false);
    } else {
      var room := |pool| - 1 < capacity;
      StepSeen(m, pool[0], a, room);
      var o := Step(m, pool[0], a, room);
      PostsOnLeaving(m, pool[0], a, room);
      if o.posted.Some? { posted := [o.posted.value]; }
      OneTaken(Seen(m.trace), pool, posted);
      assert Pass(m, pool, capacity, a).0 == o.m && Pass(m, pool, capacity, a).1 == pool[1..] + posted;
    }
  }

  lemma OneTaken(seen: seq<Trigger>, pool: seq<Trigger>, posted: seq<Trigger>)
    requires pool != []
    ensures seen + [pool[0]] + (pool[1..] + posted) == seen + pool + posted
  {
    assert [pool[0]] + pool[1..] == pool;
  }

  lemma PostsOnLeaving(m: Machine, t: Trigger, a: Answers, room: bool)
    requires !Stopped(m)
    ensures var o := Step(m, t, a, room);
            && (o.posted.Some? ==> m.state == Initial && o.m.state != Initial)
            && (m.state != Initial ==> o.m.state != Initial)
  {
  }
}
