/**
 The call engine as a step system: the two dispatcher threads of core/events/event_dispatcher.c, the
 state machine threads of statemachine.c, the bounded pools between them and the shared queuesLock.

 Each queue operation, each section under queuesLock and each handler is one step.
 */
module CallEngine {
  import opened Options
  import opened Events
  import opened CallIds
  import opened Transactions
  import opened CallMachine
  import opened CallSlots
  import opened SlotSearch

  const EVT_DP_QUEUE_SIZE := 20

  datatype Source = Gui | Sip

  function SourceOf(t: Trigger): Source {
    if FromGui(t) then Gui else Sip
  }

  datatype Router =
    | Idle
    | Holding(item: Item)              // taken from the message pool
    | Placing(item: Item, pos: nat)    // a slot was created for it, the event is not in its pool yet
    | Dead                             // the thread returned on an event it does not know

  /** One dispatcher thread with its message pool; every message below `bound` has been dealt with. */
  datatype Front = Front(pool: seq<Item>, router: Router, bound: nat)

  datatype Lock = Free | HeldBy(pos: nat) | Leaked

  /** A message nobody handles, with what the GUI was told about it. */
  datatype Refusal = Refusal(item: Item, effects: seq<Effect>)

  /**
   Every ID handed out so far: the message (by uid, -1 for none) each call ID was drawn for, and each
   SIP call ID of the stack with the message it was given to.
   */
  datatype Ids = Ids(drawnFor: seq<int>, stackIds: seq<int>, stackFor: seq<int>)

  datatype Engine = Engine(maxEvents: nat, slots: seq<Option<Slot>>, gui: Front, sip: Front, lock: Lock, ids: Ids,
                           accepted: seq<Item>, registrar: seq<Item>, refused: seq<Refusal>, ended: seq<Slot>)

  /** Message `uid` gets the next call ID. */
  function Drawn(ids: Ids, uid: int): Ids {
    ids.(drawnFor := ids.drawnFor + [uid])
  }

  /** Message `uid` gets this SIP call ID. */
  function Given(ids: Ids, sipCallId: int, uid: int): Ids {
    ids.(stackIds := ids.stackIds + [sipCallId], stackFor := ids.stackFor + [uid])
  }

  function Boot(maxCalls: nat, maxEvents: nat): Engine {
    var idle := Front([], Idle, 0);
    Engine(maxEvents, seq(maxCalls, _ => None), idle, idle, Free, Ids([], [], []), [], [], [], [])
  }

  function FrontOf(e: Engine, src: Source): Front {
    if src == Gui then e.gui else e.sip
  }

  function SetFront(e: Engine, src: Source, f: Front): Engine {
    if src == Gui then e.(gui := f) else e.(sip := f)
  }

  function SetSlot(e: Engine, p: nat, s: Slot): Engine
    requires p < |e.slots|
  {
    e.(slots := e.slots[p := Some(s)])
  }

  function CallIdsOf(slots: seq<Option<Slot>>): seq<Option<int>> {
    seq(|slots|, i requires 0 <= i < |slots| => if slots[i].Some? then Some(slots[i].value.callId) else None)
  }

  function SipCallIdsOf(slots: seq<Option<Slot>>): seq<Option<int>> {
    seq(|slots|, i requires 0 <= i < |slots| => if slots[i].Some? then Some(slots[i].value.sipCallId) else None)
  }

  // ---------------------------------------------------------------- event_dispatch

  function NextCallId(e: Engine): int {
    CounterAfter(|e.ids.drawnFor| + 1)
  }

  /** Nothing is drawn for a call without callee; a full pool refuses the message but the ID is gone. */
  function Accept(e: Engine, t: Trigger): Engine {
    var src, uid := SourceOf(t), |e.accepted|;
    var f := FrontOf(e, src);
    var room := |f.pool| < EVT_DP_QUEUE_SIZE;
    var owner := if room then uid else -1;
    if t.GuiMakeCall? then
      if t.callee.None? || t.callee.value == "" then e
      else
        var e' := e.(ids := Drawn(e.ids, owner));
        if room then Append(e', src, Outside(uid, t.(callId := NextCallId(e)), |e.ids.drawnFor| + 1)) else e'
    else if t.SipReceive? && t.sip.kind == CallInvite then
      var e' := e.(ids := Given(e.ids, t.sip.callId, owner));
      if room then Append(e', src, Outside(uid, t, |e.ids.stackIds| + 1)) else e'
    else
      if room then Append(e, src, Outside(uid, t, 0)) else e
  }

  function Append(e: Engine, src: Source, item: Item): Engine {
    var f := FrontOf(e, src);
    SetFront(e, src, f.(pool := f.pool + [item])).(accepted := e.accepted + [item])
  }

  // ---------------------------------------------------------------- dispatch

  function Take(e: Engine, src: Source): Engine
    requires FrontOf(e, src).pool != []
  {
    var f := FrontOf(e, src);
    SetFront(e, src, f.(router := Holding(f.pool[0]), pool := f.pool[1..]))
  }

  /** The router is done with its message. */
  function Settle(e: Engine, src: Source, item: Item, router: Router): Engine {
    SetFront(e, src, FrontOf(e, src).(router := router, bound := UidOf(item) + 1))
  }

  function UidOf(item: Item): nat {
    if item.Outside? then item.uid else 0
  }

  function Refuse(e: Engine, src: Source, item: Item, effects: seq<Effect>, router: Router): Engine {
    Settle(e, src, item, router).(refused := e.refused + [Refusal(item, effects)])
  }

  /** What create_queue tells the GUI when every slot is taken. */
  function NoSlotEffects(t: Trigger, told: bool): seq<Effect> {
    match t
    case GuiMakeCall(accountId, _, callId) =>
      [UserEvent(accountId, told)] + if callId > 0 then [Status(callId, CsTerminated, told)] else []
    case _ => [UserEvent(-1, told)]
  }

  function Create(e: Engine, src: Source, item: Item, info: CallInfo, told: bool): Engine {
    var p := FirstFree(e.slots);
    if p == |e.slots| then Refuse(e, src, item, NoSlotEffects(item.trigger, told), Idle)
    else SetFront(SetSlot(e, p, NewSlot(item, info)), src, FrontOf(e, src).(router := Placing(item, p)))
  }

  /** enqueue_event on the slot at p, which must be in use. */
  function Enqueue(e: Engine, src: Source, item: Item, p: nat, told: bool): Engine
    requires p < |e.slots| && e.slots[p].Some?
  {
    var s := e.slots[p].value;
    if |s.pool| < e.maxEvents then Settle(SetSlot(e, p, Put(s, item)), src, item, Idle)
    else Refuse(e, src, item, if FromGui(item.trigger) then [UserEvent(0, told)] else [], Idle)
  }

  /** enqueue_and_wake */
  function Deliver(e: Engine, src: Source, item: Item, callId: int, sipCallId: int, told: bool): Engine {
    if callId > 0 then
      var p := FirstWith(CallIdsOf(e.slots), callId);
      if p == -1 then Refuse(e, src, item, [UserEvent(0, told)], Idle) else Enqueue(e, src, item, p, told)
    else if sipCallId > 0 then
      var p := FirstWith(SipCallIdsOf(e.slots), sipCallId);
      if p == -1 then Refuse(e, src, item, [], Idle) else Enqueue(e, src, item, p, told)
    else Refuse(e, src, item, [], Idle)
  }

  predicate RouteNeedsLock(t: Trigger) {
    match t
    case GuiMakeCall(_, _, _) => true
    case SipReceive(sip) => !IsRegistration(sip.kind) && (sip.kind == CallInvite || sip.callId > 0)
    case GuiEndCall(callId) => callId > 0
    case GuiAcceptCall(callId) => callId > 0
    case _ => false
  }

  function Route(e: Engine, src: Source, info: CallInfo, told: bool): Engine
    requires FrontOf(e, src).router.Holding?
  {
    var item := FrontOf(e, src).router.item;
    match item.trigger
    case GuiMakeCall(_, _, _) => Create(e, src, item, info, told)
    case SipReceive(sip) =>
      if IsRegistration(sip.kind) then Settle(e, src, item, Idle).(registrar := e.registrar + [item])
      else if sip.kind == CallInvite then Create(e, src, item, info, told)
      else Deliver(e, src, item, 0, sip.callId, told)
    case GuiEndCall(callId) => Deliver(e, src, item, callId, 0, told)
    case GuiAcceptCall(callId) => Deliver(e, src, item, callId, 0, told)
    case _ => Refuse(e, src, item, [], Dead)
  }

  /** enqueue_event on the new slot, then start_thread(sm_start). */
  function Place(e: Engine, src: Source): Engine
    requires FrontOf(e, src).router.Placing?
    requires FrontOf(e, src).router.pos < |e.slots| && e.slots[FrontOf(e, src).router.pos].Some?
  {
    var r := FrontOf(e, src).router;
    var s := e.slots[r.pos].value;
    if |s.pool| < e.maxEvents then Settle(SetSlot(e, r.pos, Put(s, r.item).(phase := AtLoop)), src, r.item, Idle)
    else Refuse(e, src, r.item, if FromGui(r.item.trigger) then [UserEvent(0, false)] else [], Idle)
  }

  // ---------------------------------------------------------------- steps

  datatype Action =
    | DoAccept(trigger: Trigger)
    | DoTake(src: Source)
    | DoRoute(src: Source, info: CallInfo, told: bool)
    | DoPlace(src: Source)
    | DoDequeue(pos: nat)
    | DoHandle(pos: nat, answers: Answers)
    | DoTerminate(pos: nat, answers: Answers)
    | DoBeginInvite(pos: nat, answers: Answers)
    | DoFinishInvite(pos: nat, answers: Answers)
    | DoSleep(pos: nat)
    | DoWake(pos: nat)
    | DoDestroy(pos: nat)
    | DoShutdownAll

  predicate InUse(e: Engine, p: int) {
    0 <= p < |e.slots| && e.slots[p].Some?
  }

  /** INITIAL takes queuesLock to post the account answer or to publish the call ID. */
  predicate HandleNeedsLock(s: Slot, a: Answers)
    requires s.phase.Handling?
  {
    var t := s.phase.item.trigger;
    DrawsId(s.machine, t, a) || (s.machine.state == Initial && t.GuiMakeCall? && t.callee.Some?)
  }

  predicate CanRoute(e: Engine, src: Source, info: CallInfo) {
    && FrontOf(e, src).router.Holding?
    && (RouteNeedsLock(FrontOf(e, src).router.item.trigger) ==> e.lock == Free)
    && Fresh(Machine(Initial, info, false, [], [Initial]))
  }

  predicate CanHandle(e: Engine, p: nat, a: Answers) {
    && InUse(e, p) && e.slots[p].value.phase.Handling? && !SendsInvite(e.slots[p].value, a)
    && (HandleNeedsLock(e.slots[p].value, a) ==> e.lock == Free)
  }

  predicate Enabled(e: Engine, a: Action) {
    match a
    case DoAccept(_) => true
    case DoTake(src) => FrontOf(e, src).router == Idle && FrontOf(e, src).pool != []
    case DoRoute(src, info, _) => CanRoute(e, src, info)
    case DoPlace(src) => FrontOf(e, src).router.Placing? && InUse(e, FrontOf(e, src).router.pos)
    case DoDequeue(p) =>
      && InUse(e, p) && e.slots[p].value.phase == AtLoop
      && e.slots[p].value.machine.state != Terminating && e.slots[p].value.pool != []
    case DoHandle(p, answers) => CanHandle(e, p, answers)
    case DoTerminate(p, _) =>
      InUse(e, p) && e.slots[p].value.phase == AtLoop && e.slots[p].value.machine.state == Terminating
    case DoBeginInvite(p, answers) => InUse(e, p) && SendsInvite(e.slots[p].value, answers) && e.lock == Free
    case DoFinishInvite(p, _) => InUse(e, p) && e.slots[p].value.phase.Sending?
    case DoSleep(p) =>
      && InUse(e, p) && e.slots[p].value.phase == AtLoop
      && e.slots[p].value.machine.state != Terminating && e.slots[p].value.pool == []
    case DoWake(p) => InUse(e, p) && e.slots[p].value.phase == Asleep
    case DoDestroy(p) => InUse(e, p) && e.slots[p].value.phase == Leaving
    case DoShutdownAll => e.lock == Free
  }

  function HandleStep(e: Engine, p: nat, a: Answers): Engine
    requires InUse(e, p) && e.slots[p].value.phase.Handling?
  {
    var s := e.slots[p].value;
    var a := a.(newCallId := NextCallId(e));
    var s' := Handle(s, a, |s.pool| < e.maxEvents, |e.ids.drawnFor| + 1);
    var ids := if DrawsId(s.machine, s.phase.item.trigger, a) then Drawn(e.ids, UidOf(s.creator)) else e.ids;
    SetSlot(e, p, s').(ids := ids)
  }

  function BeginInviteStep(e: Engine, p: nat, a: Answers): Engine
    requires InUse(e, p) && e.slots[p].value.phase.Handling?
  {
    var s, r := e.slots[p].value, a.inviteResult;
    var ids := if r == -1 then e.ids else Given(e.ids, r, UidOf(s.creator));
    SetSlot(e, p, BeginInvite(s, r, if r == -1 then 0 else |e.ids.stackIds| + 1)).(lock := HeldBy(p), ids := ids)
  }

  /** After a failed INVITE the thread returns without releasing queuesLock. */
  function FinishInviteStep(e: Engine, p: nat, a: Answers): Engine
    requires InUse(e, p) && e.slots[p].value.phase.Sending?
  {
    var s := e.slots[p].value;
    SetSlot(e, p, FinishInvite(s, a)).(lock := if s.phase.result == -1 then Leaked else Free)
  }

  /** destroy_queue */
  function Destroyed(e: Engine, p: nat): Engine
    requires InUse(e, p)
  {
    e.(slots := e.slots[p := None], ended := e.ended + [e.slots[p].value])
  }

  function MarkShutdown(slots: seq<Option<Slot>>): seq<Option<Slot>> {
    seq(|slots|, i requires 0 <= i < |slots| =>
      if slots[i].Some? then Some(slots[i].value.(doShutdown := true)) else None)
  }

  function Fire(e: Engine, a: Action): Engine
    requires Enabled(e, a)
  {
    match a
    case DoAccept(t) => Accept(e, t)
    case DoTake(src) => Take(e, src)
    case DoRoute(src, info, told) => Route(e, src, info, told)
    case DoPlace(src) => Place(e, src)
    case DoDequeue(p) => SetSlot(e, p, CallSlots.Dequeue(e.slots[p].value))
    case DoHandle(p, answers) => HandleStep(e, p, answers)
    case DoTerminate(p, answers) => SetSlot(e, p, Terminate(e.slots[p].value, answers))
    case DoBeginInvite(p, answers) => BeginInviteStep(e, p, answers)
    case DoFinishInvite(p, answers) => FinishInviteStep(e, p, answers)
    case DoSleep(p) => SetSlot(e, p, e.slots[p].value.(phase := Asleep))
    case DoWake(p) => SetSlot(e, p, Wake(e.slots[p].value))
    case DoDestroy(p) => Destroyed(e, p)
    case DoShutdownAll => e.(slots := MarkShutdown(e.slots))
  }

  /** Any interleaving: steps that are not enabled are skipped. */
  function Execute(e: Engine, actions: seq<Action>): Engine
    decreases |actions|
  {
    if actions == [] then e
    else
      var before := Execute(e, actions[..|actions| - 1]);
      var a := actions[|actions| - 1];
      if Enabled(before, a) then Fire(before, a) else before
  }
}
