/**
 core/events/statemachine.c with its mutable state: the current state, the call record with its
 transaction table, and the machine's own event pool. Each handler is proved equal to the function of
 CallMachine it implements; `trace` and `path` are the history those functions record.

 The answers of the GUI, the SIP stack and account management are a parameter of each handler.
 */
module StateMachines {
  import opened Options
  import opened Transactions
  import opened Events
  import opened Queues
  import opened CallMachine
  import opened CallRuns

  class StateMachine {
    const callInfo: LocalCallInfo
    const eventPool: Queue<Trigger>
    var curState: State
    var errorOccurred: bool
    ghost var trace: seq<Entry>
    ghost var path: seq<State>

    ghost predicate Valid()
      reads this, callInfo, eventPool, eventPool.cells
    {
      callInfo.Valid() && eventPool.Valid()
    }

    ghost function Value(): Machine
      reads this, callInfo, callInfo.transactions
    {
      Machine(curState, callInfo.Value(), errorOccurred, trace, path)
    }

    /** sm_start up to its loop, on the pool the dispatcher created. */
    constructor (pool: Queue<Trigger>, junk: Table)
      requires pool.Valid() && |junk| == MAX_TRANSACTION_COUNT
      ensures Valid() && eventPool == pool && fresh(callInfo) && fresh(callInfo.transactions)
      ensures Fresh(Value())
    {
      eventPool := pool;
      callInfo := new LocalCallInfo(junk);
      curState := Initial;
      errorOccurred := false;
      trace := [];
      path := [Initial];
      new;
      assert callInfo.Value().transactions == callInfo.transactions[..];
      AllUnusedWhenProper(callInfo.transactions[..]);
    }

    static lemma AllUnusedWhenProper(table: Table)
      requires Proper(table) && Live(table) == []
      ensures forall i :: 0 <= i < |table| ==> table[i].id == -1
    {
    }

    method LogEffect(e: Effect)
      modifies this`trace
      ensures trace == old(trace) + [Did(e)]
    {
      trace := trace + [Did(e)];
    }

    method Enter(state: State)
      modifies this`curState, this`path
      ensures curState == state && path == old(path) + [state]
    {
      curState := state;
      path := path + [state];
    }

    // ---------------------------------------------------------------- on-entry and on-exit routines

    method CheckingOnEntry(a: Answers) returns (ok: bool)
      requires Valid()
      modifies callInfo`from, callInfo`to, eventPool, eventPool.cells
      ensures Valid()
      ensures ok == (|old(eventPool.Contents())| < eventPool.capacity)
      ensures var built := if a.accountValid then a.fromAndTo else None;
              && callInfo.from == (if built.Some? then Some(built.value.0) else old(callInfo.from))
              && callInfo.to == (if built.Some? then Some(built.value.1) else old(callInfo.to))
              && eventPool.Contents() == old(eventPool.Contents()) +
                   if ok then [if built.Some? then AccountOk else AccountError] else []
    {
      var success := true;
      if !a.accountValid {
        success := false;
      }
      if success {
        match a.fromAndTo
        case None => success := false;
        case Some((from, to)) => callInfo.from, callInfo.to := Some(from), Some(to);
      }
      ok := eventPool.EnqueueElement(if success then AccountOk else AccountError);
    }

    method InvitingOnEntry(a: Answers) returns (ok: bool)
      modifies this`trace, callInfo`sipCallId
      ensures ok == (a.accountFound && a.inviteResult != -1)
      ensures trace == old(trace) +
                if a.accountFound then [Did(Invite(callInfo.to, callInfo.from, a.inviteResult))] else []
      ensures callInfo.sipCallId == if ok then a.inviteResult else old(callInfo.sipCallId)
    {
      if !a.accountFound {
        return false;
      }
      LogEffect(Invite(callInfo.to, callInfo.from, a.inviteResult));
      if a.inviteResult == -1 {
        return false;
      }
      callInfo.sipCallId := a.inviteResult;
      return true;
    }

    method ChangeCallStatus(status: CallStatus, a: Answers) returns (ok: bool)
      modifies this`trace
      ensures ok == a.gui && trace == old(trace) + [Did(Status(callInfo.callId, status, ok))]
    {
      LogEffect(Status(callInfo.callId, status, a.gui));
      return a.gui;
    }

    method EnterRinging(a: Answers) returns (ok: bool)
      requires Valid()
      modifies this`trace
      ensures var id := FindByType(callInfo.transactions[..], INVITE_TRANSACTION);
              && ok == (id != -1 && a.stack)
              && trace == old(trace) + if id != -1 then [Did(Provisional180(id, ok))] else []
    {
      var id := callInfo.FindTransactionByType(INVITE_TRANSACTION);
      if id == -1 {
        return false;
      }
      LogEffect(Provisional180(id, a.stack));
      return a.stack;
    }

    /** connecting.OnEntry; GUI.acceptCall in CONNECTING repeats it. */
    method ConnectingOnEntry(a: Answers) returns (ok: bool)
      requires Valid()
      modifies this`trace
      ensures var id := FindByType(callInfo.transactions[..], INVITE_TRANSACTION);
              && ok == (id != -1 && a.stack)
              && trace == old(trace) + if id != -1 then [Did(Ok200(callInfo.dialogId, id, ok))] else []
    {
      var id := callInfo.FindTransactionByType(INVITE_TRANSACTION);
      if id == -1 {
        return false;
      }
      LogEffect(Ok200(callInfo.dialogId, id, a.stack));
      return a.stack;
    }

    // ---------------------------------------------------------------- the handlers

    method OnInitial(t: Trigger, a: Answers) returns (ok: bool)
      requires Valid() && !errorOccurred
      modifies this`curState, this`path, this`trace, callInfo, callInfo.transactions, eventPool, eventPool.cells
      ensures Valid()
      ensures var o := InitialState(old(Value()), t, a, |old(eventPool.Contents())| < eventPool.capacity);
              && Value() == o.m.(failed := false) && ok == !o.m.failed
              && eventPool.Contents() == old(eventPool.Contents()) + if o.posted.Some? then [o.posted.value] else []
    {
      match t
      case GuiMakeCall(accountId, callee, callId) =>
        ok := OnMakeCall(accountId, callee, callId, a);
      case SipReceive(e) =>
        if e.kind != CallInvite {
          return true;
        }
        ok := OnIncomingInvite(e, a);
      case _ =>
        return true;
    }

    method OnMakeCall(accountId: int, callee: Option<string>, callId: int, a: Answers) returns (ok: bool)
      requires Valid() && !errorOccurred
      modifies this`curState, this`path, callInfo, eventPool, eventPool.cells
      ensures Valid()
      ensures var room := |old(eventPool.Contents())| < eventPool.capacity;
              var o := MakeCall(old(Value()), accountId, callee, callId, a, room);
              && Value() == o.m.(failed := false) && ok == !o.m.failed
              && eventPool.Contents() == old(eventPool.Contents()) + if o.posted.Some? then [o.posted.value] else []
    {
      callInfo.accountId := accountId;
      callInfo.callId := callId;
      if callee.None? {
        return false;
      }
      callInfo.StoreCall(accountId, callId, callee, None, 0, 0);
      ok := CheckingOnEntry(a);
      if !ok {
        return false;
      }
      Enter(Checking);
      return true;
    }

    method OnIncomingInvite(e: SipEvent, a: Answers) returns (ok: bool)
      requires Valid() && !errorOccurred
      modifies this`curState, this`path, this`trace, callInfo, callInfo.transactions
      ensures Valid() && eventPool.Contents() == old(eventPool.Contents())
      ensures var m := IncomingInvite(old(Value()), e, a); Value() == m.(failed := false) && ok == !m.failed
    {
      callInfo.accountId := if e.toUrl.None? then -1 else a.calleeAccount;
      if callInfo.accountId == -1 {
        return false;
      }
      if e.fromUrl.None? {
        return false;
      }
      callInfo.StoreCall(callInfo.accountId, a.newCallId, e.toUrl, e.fromUrl, e.callId, e.dialogId);
      ok := callInfo.AddTransaction(e.transactionId, INVITE_TRANSACTION);
      if !ok {
        return false;
      }
      LogEffect(IncomingCall(callInfo.accountId, callInfo.callId, a.gui));
      if !a.gui {
        return false;
      }
      ok := EnterRinging(a);
      if !ok {
        return false;
      }
      Enter(Ringing);
      return true;
    }

    method OnChecking(t: Trigger, a: Answers) returns (ok: bool)
      requires Valid() && !errorOccurred
      modifies this`curState, this`path, this`trace, callInfo
      ensures Valid() && eventPool.Contents() == old(eventPool.Contents())
      ensures var m := CheckingState(old(Value()), t, a); Value() == m.(failed := false) && ok == !m.failed
    {
      ok := true;
      match t
      case AccountOk =>
        ok := InvitingOnEntry(a);
        if !ok {
          return false;
        }
        Enter(Inviting);
      case AccountError =>
        LogEffect(UserEvent(callInfo.accountId, a.gui));
        if !a.gui {
          return false;
        }
        Enter(Terminating);
      case _ =>
    }

    method OnInviting(t: Trigger, a: Answers) returns (ok: bool)
      requires Valid() && !errorOccurred && curState == Inviting
      modifies this`curState, this`path, this`trace, callInfo, callInfo.transactions
      ensures Valid() && eventPool.Contents() == old(eventPool.Contents())
      ensures var m := InvitingState(old(Value()), t, a); Value() == m.(failed := false) && ok == !m.failed
    {
      match t
      case SipReceive(e) =>
        callInfo.UpdateTransactionAndDialog(e.transactionId, INVITE_TRANSACTION, e.dialogId);
        ok := OnResponse(e, a);
      case GuiEndCall(_) =>
        if callInfo.dialogId > 0 {
          LogEffect(Cancel(callInfo.sipCallId, callInfo.dialogId, a.stack));
          if !a.stack {
            return false;
          }
        }
        Enter(Terminating);
        return true;
      case _ =>
        return true;
    }

    method OnResponse(e: SipEvent, a: Answers) returns (ok: bool)
      requires Valid() && !errorOccurred && curState == Inviting
      modifies this`curState, this`path, this`trace
      ensures var m := Response(old(Value()), e, a); Value() == m.(failed := false) && ok == !m.failed
    {
      if e.kind == CallReleased {
        ok := ChangeCallStatus(CsUnreachable, a);
        if !ok {
          return false;
        }
        Enter(Terminating);
        return true;
      }
      if e.statusCode >= 100 && e.statusCode <= 199 {
        ok := ChangeCallStatus(if e.statusCode == 180 then CsRinging else CsTrying, a);
        if !ok {
          return false;
        }
        curState := Inviting;
      } else if e.statusCode >= 200 && e.statusCode <= 299 {
        LogEffect(Ack(callInfo.dialogId, a.stack));
        if !a.stack {
          return false;
        }
        ok := ChangeCallStatus(CsAccepted, a);
        if !ok {
          return false;
        }
        Enter(Connected);
      } else if e.statusCode >= 300 && e.statusCode <= 699 {
        ok := ChangeCallStatus(CsDeclined, a);
        if !ok {
          return false;
        }
        Enter(Terminating);
      }
      return true;
    }

    method OnRinging(t: Trigger, a: Answers) returns (ok: bool)
      requires Valid() && !errorOccurred
      modifies this`curState, this`path, this`trace
      ensures Valid() && eventPool.Contents() == old(eventPool.Contents())
      ensures var m := RingingState(old(Value()), t, a); Value() == m.(failed := false) && ok == !m.failed
    {
      ok := true;
      match t
      case GuiAcceptCall(_) =>
        ok := ConnectingOnEntry(a);
        if !ok {
          return false;
        }
        Enter(Connecting);
      case GuiEndCall(_) =>
        LogEffect(Decline(callInfo.sipCallId, callInfo.dialogId, a.stack));
        if !a.stack {
          return false;
        }
        Enter(Terminating);
      case SipReceive(e) =>
        if e.kind != CallClosed || e.statusCode != 487 {
          return true;
        }
        ok := ChangeCallStatus(CsCancelled, a);
        if !ok {
          return false;
        }
        Enter(Terminating);
      case _ =>
    }

    method OnConnecting(t: Trigger, a: Answers) returns (ok: bool)
      requires Valid() && !errorOccurred
      modifies this`curState, this`path, this`trace
      ensures Valid() && eventPool.Contents() == old(eventPool.Contents())
      ensures var m := ConnectingState(old(Value()), t, a); Value() == m.(failed := false) && ok == !m.failed
    {
      ok := true;
      match t
      case GuiAcceptCall(_) =>
        ok := ConnectingOnEntry(a);
        if !ok {
          return false;
        }
        Enter(Connecting);
      case GuiEndCall(_) =>
        LogEffect(Decline(callInfo.sipCallId, callInfo.dialogId, a.stack));
        if !a.stack {
          return false;
        }
        Enter(Terminating);
      case SipReceive(e) =>
        if e.kind == CallAck {
          ok := ChangeCallStatus(CsAccepted, a);
          if !ok {
            return false;
          }
          Enter(Connected);
        } else if e.kind == CallClosed && e.statusCode == 487 {
          ok := ChangeCallStatus(CsCancelled, a);
          if !ok {
            return false;
          }
          Enter(Terminating);
        }
      case _ =>
    }

    method OnConnected(t: Trigger, a: Answers) returns (ok: bool)
      requires Valid() && !errorOccurred
      modifies this`curState, this`path, this`trace, callInfo, callInfo.transactions
      ensures Valid() && eventPool.Contents() == old(eventPool.Contents())
      ensures var m := ConnectedState(old(Value()), t, a); Value() == m.(failed := false) && ok == !m.failed
    {
      ok := true;
      match t
      case GuiEndCall(_) =>
        LogEffect(Bye(callInfo.sipCallId, callInfo.dialogId, a.stack));
        if !a.stack {
          return false;
        }
        Enter(Terminating);
      case SipReceive(e) =>
        if e.kind != CallClosed {
          return true;
        }
        callInfo.UpdateTransactionAndDialog(e.transactionId, BYE_TRANSACTION, e.dialogId);
        var id := callInfo.FindTransactionByType(BYE_TRANSACTION);
        if id == -1 {
          return false;
        }
        Enter(Terminating);
      case _ =>
    }

    method OnTerminating(a: Answers) returns (ok: bool)
      requires Valid() && !errorOccurred
      modifies this`curState, this`path, this`trace
      ensures Valid() && eventPool.Contents() == old(eventPool.Contents())
      ensures var m := TerminatingState(old(Value()), a); Value() == m.(failed := false) && ok == !m.failed
    {
      ok := ChangeCallStatus(CsTerminated, a);
      if !ok {
        return false;
      }
      Enter(Final);
      return true;
    }

    // ---------------------------------------------------------------- sm_start

    /** The handler of the current state. */
    method OnEvent(t: Trigger, a: Answers) returns (ok: bool)
      requires Valid() && !errorOccurred && curState !in {Terminating, Final}
      modifies this, callInfo, callInfo.transactions, eventPool, eventPool.cells
      ensures Valid()
      ensures var o := Consume(old(Value()), t, a, |old(eventPool.Contents())| < eventPool.capacity);
              && Value() == o.m.(failed := false) && ok == !o.m.failed
              && eventPool.Contents() == old(eventPool.Contents()) + if o.posted.Some? then [o.posted.value] else []
    {
      match curState
      case Initial => ok := OnInitial(t, a);
      case Checking => ok := OnChecking(t, a);
      case Inviting => ok := OnInviting(t, a);
      case Ringing => ok := OnRinging(t, a);
      case Connecting => ok := OnConnecting(t, a);
      case Connected => ok := OnConnected(t, a);
    }

    /** The switch of sm_start on a dequeued event (none in TERMINATING). */
    method HandleEvent(elem: Option<Trigger>, a: Answers)
      requires Valid() && !Stopped(Value()) && (elem.Some? <==> curState != Terminating)
      modifies this, callInfo, callInfo.transactions, eventPool, eventPool.cells
      ensures Valid()
      ensures var t := if elem.Some? then elem.value else InvalidEvent;
              var o := Step(old(Value()), t, a, |old(eventPool.Contents())| < eventPool.capacity);
              && Value() == o.m
              && eventPool.Contents() == old(eventPool.Contents()) + if o.posted.Some? then [o.posted.value] else []
    {
      var ok := true;
      if elem.Some? {
        trace := trace + [Saw(elem.value)];
        ok := OnEvent(elem.value, a);
      } else {
        ok := OnTerminating(a);
      }
      if !ok {
        errorOccurred := true;
      }
    }

    method OnePass(a: Answers)
      requires Valid() && KeepsLooping(Value(), eventPool.Contents())
      modifies this, callInfo, callInfo.transactions, eventPool, eventPool.cells
      ensures Valid()
      ensures (Value(), eventPool.Contents()) ==
                Pass(old(Value()), old(eventPool.Contents()), eventPool.capacity, a)
    {
      var elem: Option<Trigger> := None;
      if curState != Terminating {
        elem := eventPool.FrontAndDequeue();
      }
      ghost var rest := eventPool.Contents();
      HandleEvent(elem, a);
      assert rest + [] == rest;
    }

    /**
     The inner loop of sm_start while nothing arrives from outside. It ends: no pass raises the rank of
     the state, and a pass that keeps the rank shortens the pool.
     */
    method DrainPool(answers: nat -> Answers, doShutdown: bool) returns (passes: nat)
      requires Valid()
      modifies this, callInfo, callInfo.transactions, eventPool, eventPool.cells
      ensures Valid()
      ensures Drained(Value(), eventPool.Contents(), passes) ==
                Drain(old(Value()), old(eventPool.Contents()), eventPool.capacity, answers, 0, doShutdown)
    {
      passes := 0;
      while !errorOccurred && curState != Final && (curState == Terminating || eventPool.size != 0)
        invariant Valid()
        invariant Drain(old(Value()), old(eventPool.Contents()), eventPool.capacity, answers, 0, doShutdown) ==
                  Drain(Value(), eventPool.Contents(), eventPool.capacity, answers, passes, doShutdown)
        decreases !errorOccurred, Rank(curState), eventPool.size
      {
        PassDecreases(Value(), eventPool.Contents(), eventPool.capacity, answers(passes));
        OnePass(answers(passes));
        passes := passes + 1;
        if doShutdown {
          return;
        }
      }
    }
  }
}
