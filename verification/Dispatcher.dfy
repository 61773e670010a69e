/**
 core/events/event_dispatcher.c with its mutable `queues` array of machine records. Every operation is
 proved equal to a function on the array's value, and those functions are shown to be what the routing
 steps of the step system do to its slots.
 */
module DispatchSpec {
  import opened Options
  import opened Events
  import opened SlotSearch
  import opened Transactions
  import opened CallSlots
  import opened CallEngine
  import opened EngineRouting

  /** What the dispatcher sees of a machine: its sm_data record. */
  datatype Record = Record(callId: int, sipCallId: int, doShutdown: bool, pool: seq<Trigger>)

  type Records = seq<Option<Record>>

  function CallIdColumn(records: Records): (ids: seq<Option<int>>)
    ensures |ids| == |records|
  {
    seq(|records|, i requires 0 <= i < |records| => if records[i].Some? then Some(records[i].value.callId) else None)
  }

  function SipCallIdColumn(records: Records): (ids: seq<Option<int>>)
    ensures |ids| == |records|
  {
    seq(|records|, i requires 0 <= i < |records| => if records[i].Some? then Some(records[i].value.sipCallId) else None)
  }

  /** Whether a call succeeded, the array after it, and what it told the GUI. */
  datatype Outcome = Outcome(ok: bool, records: Records, effects: seq<Effect>)

  function CreateRecord(records: Records, accountId: int, callId: int, sipCallId: int, told: bool): Outcome {
    var p := FirstFree(records);
    if p == |records| then
      Outcome(false, records,
              [UserEvent(accountId, told)] + if callId > 0 then [Status(callId, CsTerminated, told)] else [])
    else
      Outcome(true, records[p := Some(Record(callId, sipCallId, false, []))], [])
  }

  function EnqueueAt(records: Records, maxEvents: nat, p: nat, t: Trigger, told: bool): Outcome
    requires p < |records| && records[p].Some?
  {
    var r := records[p].value;
    if |r.pool| < maxEvents then Outcome(true, records[p := Some(r.(pool := r.pool + [t]))], [])
    else Outcome(false, records, if FromGui(t) then [UserEvent(0, told)] else [])
  }

  function DeliverTo(records: Records, maxEvents: nat, callId: int, sipCallId: int, t: Trigger, told: bool): Outcome {
    if callId > 0 then
      var p := FirstWith(CallIdColumn(records), callId);
      if p == -1 then Outcome(false, records, [UserEvent(0, told)]) else EnqueueAt(records, maxEvents, p, t, told)
    else if sipCallId > 0 then
      var p := FirstWith(SipCallIdColumn(records), sipCallId);
      if p == -1 then Outcome(false, records, []) else EnqueueAt(records, maxEvents, p, t, told)
    else Outcome(false, records, [])
  }

  /** What became of a message: queued, the start of a machine, handed on, refused, or the end of the thread. */
  datatype Verdict = Queued | Started(pos: nat) | ToRegistrar | Refused(effects: seq<Effect>) | ThreadEnds

  function NewCall(records: Records, t: Trigger, accountId: int, callId: int, sipCallId: int, told: bool)
    : (Records, Verdict)
  {
    var o := CreateRecord(records, accountId, callId, sipCallId, told);
    if o.ok then (records[FirstFree(records) := Some(Record(callId, sipCallId, false, [t]))],
                  Started(FirstFree(records)))
    else (records, Refused(o.effects))
  }

  function Delivery(o: Outcome): (Records, Verdict) {
    (o.records, if o.ok then Queued else Refused(o.effects))
  }

  /** One message through the switch of dispatch. */
  function RouteMessage(records: Records, maxEvents: nat, t: Trigger, told: bool): (Records, Verdict) {
    match t
    case GuiMakeCall(accountId, _, callId) => NewCall(records, t, accountId, callId, 0, told)
    case SipReceive(e) =>
      if IsRegistration(e.kind) then (records, ToRegistrar)
      else if e.kind == CallInvite then NewCall(records, t, -1, 0, e.callId, told)
      else Delivery(DeliverTo(records, maxEvents, 0, e.callId, t, told))
    case GuiEndCall(callId) => Delivery(DeliverTo(records, maxEvents, callId, 0, t, told))
    case GuiAcceptCall(callId) => Delivery(DeliverTo(records, maxEvents, callId, 0, t, told))
    case _ => (records, ThreadEnds)
  }

  function ShutDown(records: Records): (r: Records)
    ensures |r| == |records|
  {
    seq(|records|, i requires 0 <= i < |records| =>
      if records[i].Some? then Some(records[i].value.(doShutdown := true)) else None)
  }

  // ---------------------------------------------------------------- the step system does the same

  function RecordOf(s: Slot): Record {
    Record(s.callId, s.sipCallId, s.doShutdown, Triggers(s.pool))
  }

  function RecordsOf(slots: seq<Option<Slot>>): (r: Records)
    ensures |r| == |slots|
  {
    seq(|slots|, i requires 0 <= i < |slots| => if slots[i].Some? then Some(RecordOf(slots[i].value)) else None)
  }

  lemma ColumnsAgree(slots: seq<Option<Slot>>)
    ensures CallIdColumn(RecordsOf(slots)) == CallIdsOf(slots)
    ensures SipCallIdColumn(RecordsOf(slots)) == SipCallIdsOf(slots)
  {
  }

  lemma {:induction false} FreeAgrees(slots: seq<Option<Slot>>)
    ensures FirstFree(RecordsOf(slots)) == FirstFree(slots)
  {
    if slots != [] && slots[0].Some? {
      FreeAgrees(slots[1..]);
      assert RecordsOf(slots)[1..] == RecordsOf(slots[1..]);
    }
  }

  /** A routing step made of the slots what the dispatcher makes of its array, and refused what it refuses. */
  ghost predicate AgreesOn(e: Engine, e': Engine, item: Item, result: (Records, Verdict)) {
    && RecordsOf(e'.slots) == result.0
    && e'.refused == e.refused + (if result.1.Refused? then [Refusal(item, result.1.effects)] else [])
    && e'.registrar == e.registrar + (if result.1.ToRegistrar? then [item] else [])
  }

  lemma EnqueueAgrees(e: Engine, src: Source, item: Item, p: nat, told: bool)
    requires InUse(e, p)
    ensures var o := EnqueueAt(RecordsOf(e.slots), e.maxEvents, p, item.trigger, told);
            AgreesOn(e, Enqueue(e, src, item, p, told), item, Delivery(o))
  {
    var s := e.slots[p].value;
    assert Triggers(s.pool + [item]) == Triggers(s.pool) + [item.trigger];
    assert RecordsOf(Enqueue(e, src, item, p, told).slots) ==
           EnqueueAt(RecordsOf(e.slots), e.maxEvents, p, item.trigger, told).records;
  }

  lemma CreateAgrees(e: Engine, src: Source, item: Item, info: CallInfo, told: bool)
    requires e.maxEvents >= 2 && IsCreating(item.trigger) && FrontOf(e, src).router == Holding(item)
    ensures var (records, verdict) := RouteMessage(RecordsOf(e.slots), e.maxEvents, item.trigger, told);
            var e' := Create(e, src, item, info, told);
            if verdict.Started? then
              && InUse(e', verdict.pos) && FrontOf(e', src).router == Placing(item, verdict.pos)
              && RecordsOf(Place(e', src).slots) == records
            else verdict == Refused(NoSlotEffects(item.trigger, told)) && AgreesOn(e, e', item, (records, verdict))
  {
    FreeAgrees(e.slots);
    if FirstFree(e.slots) < |e.slots| {
      PlacedRecords(e, src, item, info, told);
    }
  }

  lemma PlacedRecords(e: Engine, src: Source, item: Item, info: CallInfo, told: bool)
    requires e.maxEvents >= 2 && IsCreating(item.trigger) && FrontOf(e, src).router == Holding(item)
    requires FirstFree(RecordsOf(e.slots)) == FirstFree(e.slots) < |e.slots|
    ensures var e' := Create(e, src, item, info, told);
            && FrontOf(e', src).router == Placing(item, FirstFree(e.slots)) && InUse(e', FirstFree(e.slots))
            && RecordsOf(Place(e', src).slots) == RouteMessage(RecordsOf(e.slots), e.maxEvents, item.trigger, told).0
  {
    assert Triggers([] + [item]) == [] + [item.trigger] == [item.trigger];
  }

  /** enqueue_and_wake is the Deliver step. */
  lemma DeliverAgrees(e: Engine, src: Source, item: Item, callId: int, sipCallId: int, told: bool)
    ensures AgreesOn(e, Deliver(e, src, item, callId, sipCallId, told), item,
                     Delivery(DeliverTo(RecordsOf(e.slots), e.maxEvents, callId, sipCallId, item.trigger, told)))
  {
    ColumnsAgree(e.slots);
    if callId > 0 {
      var p := FirstWith(CallIdsOf(e.slots), callId);
      if p != -1 { EnqueueAgrees(e, src, item, p, told); }
    } else if sipCallId > 0 {
      var p := FirstWith(SipCallIdsOf(e.slots), sipCallId);
      if p != -1 { EnqueueAgrees(e, src, item, p, told); }
    }
  }

  /** Routing any message in the step system is one pass of dispatch over the array of records. */
  lemma RouteAgrees(e: Engine, src: Source, info: CallInfo, told: bool)
    requires e.maxEvents >= 2 && FrontOf(e, src).router.Holding?
    requires !IsAccountAnswer(FrontOf(e, src).router.item.trigger)
            && FrontOf(e, src).router.item.trigger != InvalidEvent
    ensures var item := FrontOf(e, src).router.item;
            var result := RouteMessage(RecordsOf(e.slots), e.maxEvents, item.trigger, told);
            var e' := Route(e, src, info, told);
            if result.1.Started? then
              && FrontOf(e', src).router == Placing(item, result.1.pos) && InUse(e', result.1.pos)
              && RecordsOf(Place(e', src).slots) == result.0
            else AgreesOn(e, e', item, result)
  {
    RouteIs(e, src, info, told);
    var item := FrontOf(e, src).router.item;
    var t := item.trigger;
    if IsCreating(t) {
      CreateAgrees(e, src, item, info, told);
    } else if t.SipReceive? && !IsRegistration(t.sip.kind) {
      DeliverAgrees(e, src, item, 0, t.sip.callId, told);
    } else if t.GuiEndCall? || t.GuiAcceptCall? {
      DeliverAgrees(e, src, item, t.callId, 0, told);
    }
  }
}

module Dispatchers {
  import opened Options
  import opened Events
  import opened Queues
  import opened SlotSearch
  import opened DispatchSpec

  class SmData {
    const eventPool: Queue<Trigger>
    var callId: int
    var sipCallId: int
    var doShutdown: bool

    constructor (callId: int, sipCallId: int, maxEvents: nat)
      requires maxEvents != 1
      ensures eventPool.Valid() && fresh(eventPool) && fresh(eventPool.cells)
      ensures eventPool.capacity == maxEvents && Value() == Record(callId, sipCallId, false, [])
    {
      this.callId := callId;
      this.sipCallId := sipCallId;
      doShutdown := false;
      eventPool := new Queue<Trigger>(maxEvents);
    }

    ghost function Value(): Record
      requires eventPool.Valid()
      reads this, eventPool, eventPool.cells
    {
      Record(callId, sipCallId, doShutdown, eventPool.Contents())
    }
  }

  class Dispatcher {
    const queues: array<SmData?>
    const maxEvents: nat
    ghost var Repr: set<object>

    ghost predicate Valid()
      reads this, Repr
      ensures Valid() ==> this in Repr
    {
      && this in Repr && queues in Repr && queues.Length > 0 && maxEvents != 1
      && (forall i :: 0 <= i < queues.Length && queues[i] != null ==>
            && queues[i] in Repr && queues[i].eventPool in Repr && queues[i].eventPool.cells in Repr
            && queues[i].eventPool.Valid() && queues[i].eventPool.capacity == maxEvents)
      && (forall i, j :: 0 <= i < j < queues.Length && queues[i] != null && queues[j] != null ==>
            && queues[i] != queues[j] && queues[i].eventPool != queues[j].eventPool
            && queues[i].eventPool.cells != queues[j].eventPool.cells)
    }

    /** The array as the step system sees it. */
    ghost function Value(): (r: Records)
      requires Valid()
      reads this, Repr
      ensures |r| == queues.Length
    {
      seq(queues.Length, i requires 0 <= i < queues.Length && Valid() reads this, Repr =>
        if queues[i] != null then Some(queues[i].Value()) else None)
    }

    /** ed_init */
    constructor (maxCalls: nat, maxEvents: nat)
      requires maxCalls > 0 && maxEvents != 1
      ensures Valid() && fresh(Repr) && Value() == seq(maxCalls, _ => None)
      ensures this.maxEvents == maxEvents
    {
      queues := new SmData?[maxCalls](_ => null);
      this.maxEvents := maxEvents;
      new;
      Repr := {this, queues};
    }

    method CreateQueue(accountId: int, callId: int, sipCallId: int, told: bool)
      returns (ok: bool, pos: nat, effects: seq<Effect>)
      requires Valid()
      modifies Repr
      ensures Valid() && fresh(Repr - old(Repr))
      ensures Outcome(ok, Value(), effects) == CreateRecord(old(Value()), accountId, callId, sipCallId, told)
      ensures pos == FirstFree(old(Value()))
    {
      ghost var before := Value();
      effects := [];
      pos := 0;
      while queues[pos] != null
        invariant pos < queues.Length
        invariant forall i :: 0 <= i < pos ==> before[i].Some?
        decreases queues.Length - pos
      {
        pos := pos + 1;
        if pos == queues.Length {
          FreeIs(before, pos);
          effects := [UserEvent(accountId, told)];
          if callId > 0 {
            effects := effects + [Status(callId, CsTerminated, told)];
          }
          return false, pos, effects;
        }
      }
      FreeIs(before, pos);
      StoreRecord(pos, callId, sipCallId);
      ok := true;
    }

    /** A free position becomes a new record. */
    method StoreRecord(pos: nat, callId: int, sipCallId: int)
      requires Valid() && pos < queues.Length && queues[pos] == null
      modifies this`Repr, queues
      ensures Valid() && fresh(Repr - old(Repr)) && queues[pos] != null
      ensures Value() == old(Value())[pos := Some(Record(callId, sipCallId, false, []))]
    {
      ghost var before := Value();
      var data := new SmData(callId, sipCallId, maxEvents);
      queues[pos] := data;
      Repr := Repr + {data, data.eventPool, data.eventPool.cells};
      assert Valid();
      assert forall i :: 0 <= i < queues.Length && i != pos && queues[i] != null ==>
          queues[i].Value() == before[i].value;
      assert Value() == before[pos := Some(Record(callId, sipCallId, false, []))];
    }

    static lemma FreeIs(records: Records, p: nat)
      requires p <= |records| && forall i :: 0 <= i < p ==> records[i].Some?
      requires p < |records| ==> records[p].None?
      ensures FirstFree(records) == p
    {
    }

    /** destroy_queue */
    method DestroyQueue(pos: nat)
      requires Valid() && pos < queues.Length && queues[pos] != null
      modifies queues
      ensures Valid() && Repr == old(Repr)
      ensures Value() == old(Value())[pos := None]
    {
      queues[pos] := null;
      assert Value() == old(Value())[pos := None];
    }

    method FindPosByCallId(callId: int) returns (res: int)
      requires Valid()
      ensures res == FirstWith(CallIdColumn(Value()), callId)
    {
      ghost var ids := CallIdColumn(Value());
      var i := 0;
      while i < queues.Length
        invariant 0 <= i <= queues.Length
        invariant forall k :: 0 <= k < i ==> ids[k] != Some(callId)
      {
        if queues[i] != null {
          if queues[i].callId == callId {
            FirstWithIs(ids, callId, i);
            return i;
          }
        }
        i := i + 1;
      }
      return -1;
    }

    method FindPosBySipCallId(sipCallId: int) returns (res: int)
      requires Valid()
      ensures res == FirstWith(SipCallIdColumn(Value()), sipCallId)
    {
      ghost var ids := SipCallIdColumn(Value());
      var i := 0;
      while i < queues.Length
        invariant 0 <= i <= queues.Length
        invariant forall k :: 0 <= k < i ==> ids[k] != Some(sipCallId)
      {
        if queues[i] != null {
          if queues[i].sipCallId == sipCallId {
            FirstWithIs(ids, sipCallId, i);
            return i;
          }
        }
        i := i + 1;
      }
      return -1;
    }

    method EnqueueEvent(pos: nat, t: Trigger, told: bool) returns (ok: bool, effects: seq<Effect>)
      requires Valid() && pos < queues.Length && queues[pos] != null
      modifies queues[pos].eventPool, queues[pos].eventPool.cells
      ensures Valid() && Repr == old(Repr)
      ensures Outcome(ok, Value(), effects) == EnqueueAt(old(Value()), maxEvents, pos, t, told)
    {
      ghost var before := Value();
      ok := queues[pos].eventPool.EnqueueElement(t);
      effects := if !ok && FromGui(t) then [UserEvent(0, told)] else [];
      assert forall i :: 0 <= i < queues.Length && i != pos && queues[i] != null ==>
          queues[i].Value() == before[i].value;
      assert Value() == EnqueueAt(before, maxEvents, pos, t, told).records;
    }

    method EnqueueAndWake(callId: int, sipCallId: int, t: Trigger, told: bool) returns (ok: bool, effects: seq<Effect>)
      requires Valid()
      modifies Repr
      ensures Valid() && Repr == old(Repr)
      ensures Outcome(ok, Value(), effects) == DeliverTo(old(Value()), maxEvents, callId, sipCallId, t, told)
    {
      var res: int;
      if callId > 0 {
        res := FindPosByCallId(callId);
        if res == -1 {
          return false, [UserEvent(0, told)];
        }
      } else if sipCallId > 0 {
        res := FindPosBySipCallId(sipCallId);
        if res == -1 {
          return false, [];
        }
      } else {
        return false, [];
      }
      ok, effects := EnqueueEvent(res, t, told);
    }

    static lemma FirstEvent(before: Records, created: Records, pos: nat, maxEvents: nat, r: Record, t: Trigger,
                            told: bool)
      requires pos < |before| && created == before[pos := Some(r)] && r.pool == [] && maxEvents > 0
      ensures created[pos] == Some(r)
      ensures EnqueueAt(created, maxEvents, pos, t, told) == Outcome(true, before[pos := Some(r.(pool := [t]))], [])
    {
      assert r.pool + [t] == [t];
      assert created[pos := Some(r.(pool := [t]))] == before[pos := Some(r.(pool := [t]))];
    }

    /** The part of dispatch that creates a machine: create_queue, enqueue_event, start_thread. */
    method DispatchNewCall(t: Trigger, accountId: int, callId: int, sipCallId: int, told: bool) returns (v: Verdict)
      requires Valid() && maxEvents >= 2
      modifies Repr
      ensures Valid() && fresh(Repr - old(Repr))
      ensures (Value(), v) == NewCall(old(Value()), t, accountId, callId, sipCallId, told)
    {
      var ok, pos, effects := CreateQueue(accountId, callId, sipCallId, told);
      if !ok {
        return Refused(effects);
      }
      ghost var before, created := old(Value()), Value();
      assert created == before[pos := Some(Record(callId, sipCallId, false, []))];
      FirstEvent(before, created, pos, maxEvents, Record(callId, sipCallId, false, []), t, told);
      ok, effects := EnqueueEvent(pos, t, told);
      v := Started(pos);
    }

    /** The switch of dispatch, on one message. */
    method Dispatch(t: Trigger, told: bool) returns (v: Verdict)
      requires Valid() && maxEvents >= 2
      modifies Repr
      ensures Valid() && fresh(Repr - old(Repr))
      ensures (Value(), v) == RouteMessage(old(Value()), maxEvents, t, told)
    {
      match t
      case GuiMakeCall(accountId, _, callId) =>
        v := DispatchNewCall(t, accountId, callId, 0, told);
      case SipReceive(e) =>
        if IsRegistration(e.kind) {
          v := ToRegistrar;
        } else if e.kind == CallInvite {
          v := DispatchNewCall(t, -1, 0, e.callId, told);
        } else {
          v := DispatchToMachine(0, e.callId, t, told);
        }
      case GuiEndCall(callId) =>
        v := DispatchToMachine(callId, 0, t, told);
      case GuiAcceptCall(callId) =>
        v := DispatchToMachine(callId, 0, t, told);
      case _ =>
        v := ThreadEnds;
    }

    method DispatchToMachine(callId: int, sipCallId: int, t: Trigger, told: bool) returns (v: Verdict)
      requires Valid()
      modifies Repr
      ensures Valid() && Repr == old(Repr)
      ensures (Value(), v) == Delivery(DeliverTo(old(Value()), maxEvents, callId, sipCallId, t, told))
    {
      var ok, effects := EnqueueAndWake(callId, sipCallId, t, told);
      if ok {
        v := Queued;
      } else {
        v := Refused(effects);
      }
    }

    /** ed_shutdown_all */
    method ShutdownAll()
      requires Valid()
      modifies Repr
      ensures Valid() && Repr == old(Repr)
      ensures Value() == ShutDown(old(Value()))
      ensures forall i :: 0 <= i < queues.Length ==>
                Value()[i] == if old(Value())[i].None? then None else Some(old(Value())[i].value.(doShutdown := true))
    {
      ghost var before := Value();
      for i := 0 to queues.Length
        invariant Valid() && Repr == old(Repr) && queues[..] == old(queues[..])
        invariant forall k :: 0 <= k < queues.Length ==>
                    Value()[k] == if k < i then ShutDown(before)[k] else before[k]
      {
        if queues[i] != null {
          queues[i].doShutdown := true;
        }
      }
    }
  }
}

/** event_dispatch: the entry into the two message pools, with the call ID generator. */
module MessagePools {
  import opened Options
  import opened Events
  import opened Queues
  import opened CallIds
  import opened CallSlots
  import opened CallEngine

  /** The Accept step of the step system stores the same message in the same pool, and draws the same ID. */
  lemma AcceptAgrees(e: Engine, t: Trigger)
    ensures var e' := Accept(e, t);
            var missing := t.GuiMakeCall? && (t.callee.None? || t.callee.value == "");
            var src := if t.GuiMakeCall? || t.GuiEndCall? || t.GuiAcceptCall? then Gui else Sip;
            var room := |FrontOf(e, src).pool| < EVT_DP_QUEUE_SIZE;
            var message := if t.GuiMakeCall? then t.(callId := NextCallId(e)) else t;
            && |e'.ids.drawnFor| == |e.ids.drawnFor| + (if t.GuiMakeCall? && !missing then 1 else 0)
            && Triggers(FrontOf(e', src).pool) ==
               Triggers(FrontOf(e, src).pool) + (if room && !missing then [message] else [])
            && (src == Gui ==> e'.sip == e.sip) && (src == Sip ==> e'.gui == e.gui)
            && |e'.accepted| == |e.accepted| + (if room && !missing then 1 else 0)
  {
  }

  class EventDispatch {
    const guiPool: Queue<Trigger>
    const sipPool: Queue<Trigger>
    const generator: CallIdGenerator

    ghost predicate Valid()
      reads this, guiPool, guiPool.cells, sipPool, sipPool.cells, generator
    {
      && guiPool.Valid() && sipPool.Valid() && generator.Valid()
      && guiPool != sipPool && guiPool.cells != sipPool.cells
      && guiPool.capacity == EVT_DP_QUEUE_SIZE && sipPool.capacity == EVT_DP_QUEUE_SIZE
    }

    constructor ()
      ensures Valid() && guiPool.Contents() == [] && sipPool.Contents() == [] && generator.draws == 0
      ensures fresh({guiPool, sipPool, guiPool.cells, sipPool.cells, generator})
    {
      guiPool := new Queue<Trigger>(EVT_DP_QUEUE_SIZE);
      sipPool := new Queue<Trigger>(EVT_DP_QUEUE_SIZE);
      generator := new CallIdGenerator.Init();
    }

    /** Even a message the full pool refuses uses up its call ID. */
    method Accept(t: Trigger) returns (ok: bool, callId: Option<int>)
      requires Valid()
      modifies guiPool, guiPool.cells, sipPool, sipPool.cells, generator
      ensures Valid()
      ensures var draws := t.GuiMakeCall? && t.callee.Some? && t.callee.value != "";
              && generator.draws == old(generator.draws) + (if draws then 1 else 0)
              && callId == if draws then Some(CounterAfter(generator.draws)) else None
      ensures var gui := t.GuiMakeCall? || t.GuiEndCall? || t.GuiAcceptCall?;
              var missing := t.GuiMakeCall? && (t.callee.None? || t.callee.value == "");
              ok == (!missing && |if gui then old(guiPool.Contents()) else old(sipPool.Contents())| < EVT_DP_QUEUE_SIZE)
      ensures var gui := t.GuiMakeCall? || t.GuiEndCall? || t.GuiAcceptCall?;
              var message := if t.GuiMakeCall? then t.(callId := CounterAfter(generator.draws)) else t;
              && guiPool.Contents() == old(guiPool.Contents()) + (if ok && gui then [message] else [])
              && sipPool.Contents() == old(sipPool.Contents()) + (if ok && !gui then [message] else [])
    {
      callId := None;
      var message := t;
      if t.GuiMakeCall? {
        if t.callee.None? || t.callee.value == "" {
          return false, None;
        }
        var id := generator.Generate();
        callId := Some(id);
        message := t.(callId := id);
      }
      if FromGui(t) {
        ok := guiPool.EnqueueElement(message);
      } else {
        ok := sipPool.EnqueueElement(message);
      }
    }
  }
}
