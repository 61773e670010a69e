/** What the dispatcher does with each kind of message, and what shutting down does, said case by case. */
module DispatchDuties {
  import opened Options
  import opened Events
  import opened SlotSearch
  import opened CallSlots
  import opened CallEngine
  import opened DispatchSpec

  /** The registrar gets the five registration events and no others, and no machine is touched by them. */
  lemma RegistrationsGoToRegistrar(records: Records, maxEvents: nat, e: SipEvent, told: bool)
    ensures var (records', v) := RouteMessage(records, maxEvents, SipReceive(e), told);
            && (v == ToRegistrar <==>
                  e.kind in {RegistrationNew, RegistrationSuccess, RegistrationFailure, RegistrationRefreshed,
                             RegistrationTerminated})
            && (v == ToRegistrar ==> records' == records)
  {
  }

  /** The position is the first that is free. */
  predicate IsFirstFree(records: Records, p: nat) {
    p < |records| && records[p].None? && forall i :: 0 <= i < p ==> records[i].Some?
  }

  /** A call from the GUI gets the first free position, with its own call ID and itself as the first event. */
  lemma MakeCallStarts(records: Records, maxEvents: nat, accountId: int, callee: Option<string>, callId: int,
                       told: bool)
    ensures var t := GuiMakeCall(accountId, callee, callId);
            var (records', v) := RouteMessage(records, maxEvents, t, told);
            && (forall p: nat :: IsFirstFree(records, p) ==>
                  v == Started(p) && records' == records[p := Some(Record(callId, 0, false, [t]))])
            && ((forall i :: 0 <= i < |records| ==> records[i].Some?) ==>
                  && records' == records
                  && v == Refused([UserEvent(accountId, told)] +
                                  if callId > 0 then [Status(callId, CsTerminated, told)] else []))
  {
  }

  /** So does an INVITE, with the SIP call ID it brought; if there is none the GUI is told, but of no call. */
  lemma InviteStarts(records: Records, maxEvents: nat, e: SipEvent, told: bool)
    requires e.kind == CallInvite
    ensures var (records', v) := RouteMessage(records, maxEvents, SipReceive(e), told);
            && (forall p: nat :: IsFirstFree(records, p) ==>
                  v == Started(p) && records' == records[p := Some(Record(0, e.callId, false, [SipReceive(e)]))])
            && ((forall i :: 0 <= i < |records| ==> records[i].Some?) ==>
                  records' == records && v == Refused([UserEvent(-1, told)]))
  {
  }

  /** The event is the last one in the pool of this record, or refused because that is full. */
  predicate PutInto(records: Records, maxEvents: nat, p: nat, t: Trigger, refusal: seq<Effect>, r: (Records, Verdict)) {
    && p < |records| && records[p].Some?
    && var pool := records[p].value.pool;
       if |pool| < maxEvents
       then r.1 == Queued && r.0 == records[p := Some(records[p].value.(pool := pool + [t]))]
       else r.1 == Refused(refusal) && r.0 == records
  }

  predicate HasCallId(records: Records, i: nat, callId: int) {
    i < |records| && records[i].Some? && records[i].value.callId == callId
  }

  predicate HasSipCallId(records: Records, i: nat, sipCallId: int) {
    i < |records| && records[i].Some? && records[i].value.sipCallId == sipCallId
  }

  /** Hanging up and accepting go to the first machine with this call ID; without one the GUI is told. */
  lemma GuiEventsGoByCallId(records: Records, maxEvents: nat, t: Trigger, told: bool)
    requires t.GuiEndCall? || t.GuiAcceptCall?
    ensures var r := RouteMessage(records, maxEvents, t, told);
            && (t.callId <= 0 ==> r == (records, Refused([])))
            && (t.callId > 0 && (forall i: nat :: !HasCallId(records, i, t.callId)) ==>
                  r == (records, Refused([UserEvent(0, told)])))
            && (forall p: nat :: t.callId > 0 && HasCallId(records, p, t.callId) &&
                                 (forall i: nat :: i < p ==> !HasCallId(records, i, t.callId)) ==>
                  PutInto(records, maxEvents, p, t, [UserEvent(0, told)], r))
  {
    CallIdsIn(records);
    if t.callId > 0 {
      var p := FirstWith(CallIdColumn(records), t.callId);
      if p == -1 {
        forall i: nat ensures !HasCallId(records, i, t.callId) {
          assert i < |records| ==> CallIdColumn(records)[i] != Some(t.callId);
        }
      } else {
        assert HasCallId(records, p, t.callId);
        forall i: nat | i < p ensures !HasCallId(records, i, t.callId) {
          assert CallIdColumn(records)[i] != Some(t.callId);
        }
      }
    }
  }

  lemma CallIdsIn(records: Records)
    ensures forall i: nat, id :: HasCallId(records, i, id) <==>
              i < |records| && CallIdColumn(records)[i] == Some(id)
    ensures forall i: nat, id :: HasSipCallId(records, i, id) <==>
              i < |records| && SipCallIdColumn(records)[i] == Some(id)
  {
  }

  /** All other SIP events go to the first machine with their SIP call ID, and are dropped in silence without one. */
  lemma SipEventsGoBySipCallId(records: Records, maxEvents: nat, e: SipEvent, told: bool)
    requires e.kind == CallReleased || e.kind == CallAck || e.kind == CallClosed || e.kind.OtherType?
    ensures var r := RouteMessage(records, maxEvents, SipReceive(e), told);
            && (e.callId <= 0 || (forall i: nat :: !HasSipCallId(records, i, e.callId)) ==> r == (records, Refused([])))
            && (forall p: nat :: e.callId > 0 && HasSipCallId(records, p, e.callId) &&
                                 (forall i: nat :: i < p ==> !HasSipCallId(records, i, e.callId)) ==>
                  PutInto(records, maxEvents, p, SipReceive(e), [], r))
  {
    CallIdsIn(records);
    if e.callId > 0 {
      var p := FirstWith(SipCallIdColumn(records), e.callId);
      if p == -1 {
        forall i: nat ensures !HasSipCallId(records, i, e.callId) {
          assert i < |records| ==> SipCallIdColumn(records)[i] != Some(e.callId);
        }
      } else {
        assert HasSipCallId(records, p, e.callId);
        forall i: nat | i < p ensures !HasSipCallId(records, i, e.callId) {
          assert SipCallIdColumn(records)[i] != Some(e.callId);
        }
      }
    }
  }

  /** The events a machine posts to itself never come here; the thread ends on them. */
  lemma UnknownMessagesEndThread(records: Records, maxEvents: nat, t: Trigger, told: bool)
    requires t == InvalidEvent || t == AccountOk || t == AccountError
    ensures RouteMessage(records, maxEvents, t, told) == (records, ThreadEnds)
  {
  }

  /** Every machine is asked to stop and keeps its IDs and events; free positions stay free. */
  lemma ShutDownAsksAll(records: Records, p: nat)
    requires p < |records|
    ensures records[p].Some? ==>
              ShutDown(records)[p] ==
                Some(Record(records[p].value.callId, records[p].value.sipCallId, true, records[p].value.pool))
    ensures records[p].None? ==> ShutDown(records)[p].None?
  {
  }

  /** The step system does the same to its slots. */
  lemma ShutDownAgrees(slots: seq<Option<Slot>>)
    ensures RecordsOf(MarkShutdown(slots)) == ShutDown(RecordsOf(slots))
  {
  }

  /** Which of the two message pools a message goes into, and that it does exactly while that holds less than 20. */
  lemma PoolOfMessage(e: Engine, t: Trigger)
    requires t.GuiMakeCall? ==> t.callee.Some? && t.callee.value != ""
    ensures var gui := t.GuiMakeCall? || t.GuiEndCall? || t.GuiAcceptCall?;
            var e' := Accept(e, t);
            && (if gui then e'.sip == e.sip else e'.gui == e.gui)
            && |e'.gui.pool| == |e.gui.pool| + (if gui && |e.gui.pool| < 20 then 1 else 0)
            && |e'.sip.pool| == |e.sip.pool| + (if !gui && |e.sip.pool| < 20 then 1 else 0)
  {
  }
}
