/**
 One entry of the dispatcher's `queues` array with the thread of its state machine, and what each
 atomic step does to it.

 `routed` and `consumed` are histories: everything ever put into the pool, and everything handled.
 */
module CallSlots {
  import opened Options
  import opened Transactions
  import opened Events
  import opened CallMachine
  import opened CallSafety

  /**
   An event in a pool: the uid-th message accepted by event_dispatch, or one the machine posted itself.
   `mark` is the number of the call ID drawn for a GUI_MAKE_CALL, or of the SIP call ID an INVITE brought.
   */
  datatype Item = Outside(uid: nat, trigger: Trigger, mark: nat) | Inside(trigger: Trigger)

  predicate IsCreating(t: Trigger) {
    t.GuiMakeCall? || (t.SipReceive? && t.sip.kind == CallInvite)
  }

  datatype Phase =
    | Created                                // allocated by create_queue, its thread not started
    | AtLoop                                 // at the head of the inner loop of sm_start
    | Handling(item: Item)                   // an event has been dequeued
    | Sending(item: Item, result: int)       // INVITE sent, queuesLock held, ID not stored yet
    | Asleep
    | Leaving                                // out of the loop, the slot not destroyed yet

  datatype Slot = Slot(creator: Item, callId: int, sipCallId: int, doShutdown: bool, phase: Phase, machine: Machine,
                       pool: seq<Item>, routed: seq<Item>, consumed: seq<Item>, callDraw: nat, sipMark: nat)

  function InHand(phase: Phase): seq<Item> {
    match phase
    case Handling(item) => [item]
    case Sending(item, _) => [item]
    case _ => []
  }

  // ---------------------------------------------------------------- steps of one slot

  /** What create_queue fills in. */
  function NewSlot(creator: Item, info: CallInfo): Slot {
    var m := Machine(Initial, info, false, [], [Initial]);
    match creator.trigger
    case GuiMakeCall(_, _, callId) => Slot(creator, callId, 0, false, Created, m, [], [], [], Mark(creator), 0)
    case SipReceive(e) => Slot(creator, 0, e.callId, false, Created, m, [], [], [], 0, Mark(creator))
    case _ => Slot(creator, 0, 0, false, Created, m, [], [], [], 0, 0)
  }

  function Mark(item: Item): nat {
    if item.Outside? then item.mark else 0
  }

  function Put(s: Slot, item: Item): Slot {
    s.(pool := s.pool + [item], routed := s.routed + [item])
  }

  function Start(s: Slot): Slot {
    Put(s, s.creator).(phase := AtLoop)
  }

  function Dequeue(s: Slot): Slot
    requires s.pool != []
  {
    s.(phase := Handling(s.pool[0]), pool := s.pool[1..])
  }

  function NextPhase(s: Slot, m: Machine): Phase {
    if Stopped(m) || s.doShutdown then Leaving else AtLoop
  }

  /** INITIAL draws a call ID for an INVITE to one of our accounts. */
  predicate DrawsId(m: Machine, t: Trigger, a: Answers) {
    && m.state == Initial && t.SipReceive? && t.sip.kind == CallInvite
    && t.sip.toUrl.Some? && a.calleeAccount != -1 && t.sip.fromUrl.Some?
  }

  /** The handler of the event in hand; `draw` is the number of the next call ID. */
  function Handle(s: Slot, a: Answers, room: bool, draw: nat): Slot
    requires s.phase.Handling?
  {
    var item := s.phase.item;
    var o := Step(s.machine, item.trigger, a, room);
    var s' := s.(phase := NextPhase(s, o.m), machine := o.m, consumed := s.consumed + [item]);
    var s'' := if DrawsId(s.machine, item.trigger, a) then s'.(callId := a.newCallId, callDraw := draw) else s';
    if o.posted.Some? then Put(s'', Inside(o.posted.value)) else s''
  }

  function Terminate(s: Slot, a: Answers): Slot {
    var m := Step(s.machine, InvalidEvent, a, false).m;
    s.(phase := NextPhase(s, m), machine := m)
  }

  function BeginInvite(s: Slot, result: int, mark: nat): Slot
    requires s.phase.Handling?
  {
    s.(phase := Sending(s.phase.item, result), sipMark := mark)
  }

  function FinishInvite(s: Slot, a: Answers): Slot
    requires s.phase.Sending?
  {
    var a := a.(accountFound := true, inviteResult := s.phase.result);
    var m := Step(s.machine, s.phase.item.trigger, a, false).m;
    s.(phase := NextPhase(s, m), machine := m, consumed := s.consumed + [s.phase.item],
       sipCallId := if s.phase.result == -1 then s.sipCallId else s.phase.result)
  }

  function Wake(s: Slot): Slot {
    s.(phase := if s.doShutdown then Leaving else AtLoop)
  }

  // ---------------------------------------------------------------- what every slot keeps

  function Triggers(items: seq<Item>): (ts: seq<Trigger>)
    ensures |ts| == |items| && forall i :: 0 <= i < |ts| ==> ts[i] == items[i].trigger
  {
    seq(|items|, i requires 0 <= i < |items| => items[i].trigger)
  }

  /** The events a machine has handled, read off its trace. */
  function Seen(h: seq<Entry>): seq<Trigger>
    decreases |h|
  {
    if h == [] then []
    else if h[|h| - 1].Saw? then Seen(h[..|h| - 1]) + [h[|h| - 1].trigger]
    else Seen(h[..|h| - 1])
  }

  function AccountAnswers(items: seq<Item>): nat
    decreases |items|
  {
    if items == [] then 0
    else AccountAnswers(items[..|items| - 1]) + if IsAccountAnswer(items[|items| - 1].trigger) then 1 else 0
  }

  /** First in, first out: what was handled, what is in hand and what waits is what was put in, in order. */
  ghost predicate Fifo(s: Slot) {
    s.consumed + InHand(s.phase) + s.pool == s.routed && Seen(s.machine.trace) == Triggers(s.consumed)
  }

  ghost predicate Born(s: Slot) {
    && s.creator.Outside? && IsCreating(s.creator.trigger)
    && (s.phase == Created ==> s.routed == [] && s.machine.state == Initial && s.machine.trace == [])
    && (s.phase != Created ==> s.routed != [] && s.routed[0] == s.creator)
    && (s.machine.state == Initial && !s.machine.failed ==> s.consumed == [])
    && (forall i :: 0 <= i < |s.routed| ==> (s.routed[i].Inside? <==> IsAccountAnswer(s.routed[i].trigger)))
    && (forall i :: 0 < i < |s.routed| ==> !IsCreating(s.routed[i].trigger))
  }

  ghost predicate HasSipEvent(items: seq<Item>) {
    exists i :: 0 <= i < |items| && items[i].trigger.SipReceive?
  }

  ghost predicate OwnIds(s: Slot) {
    var m := s.machine;
    match s.creator.trigger
    case GuiMakeCall(_, _, callId) =>
      && SideOf(m.path) != Callee
      && s.callId == callId && s.callDraw == Mark(s.creator)
      && (m.state != Initial ==> m.info.callId == s.callId)
      && (m.state in {Initial, Checking} ==> s.sipCallId == 0)
      && (m.state in {Inviting, Connected} ==> s.sipCallId == m.info.sipCallId)
      && (s.sipCallId == 0 ==> !HasSipEvent(s.routed))
    case SipReceive(e) =>
      && SideOf(m.path) != Caller
      && s.sipCallId == e.callId && s.sipMark == Mark(s.creator)
      && (s.callDraw == 0 ==> s.callId == 0) && (s.phase == Created ==> s.callDraw == 0)
      && (m.state != Initial ==> m.info.callId == s.callId && s.callDraw > 0)
    case _ => false
  }

  ghost predicate PhaseOk(s: Slot) {
    && (s.phase != Leaving ==> !Stopped(s.machine))
    && (s.phase.Sending? ==>
          s.machine.state == Checking && s.phase.item.trigger == AccountOk && s.creator.trigger.GuiMakeCall?)
    && (s.phase.Handling? ==> s.machine.state != Terminating)
    && AccountAnswers(InHand(s.phase) + s.pool) == if s.machine.state == Checking && !s.machine.failed then 1 else 0
  }

  ghost predicate SlotInv(s: Slot) {
    Inv(s.machine) && Fifo(s) && Born(s) && OwnIds(s) && PhaseOk(s)
  }

  // ---------------------------------------------------------------- small facts about one step

  lemma AnswersExtend(items: seq<Item>, x: Item)
    ensures AccountAnswers(items + [x]) == AccountAnswers(items) + if IsAccountAnswer(x.trigger) then 1 else 0
  {
    assert (items + [x])[..|items|] == items;
  }

  lemma {:induction false} AnswersHead(items: seq<Item>)
    requires items != []
    ensures AccountAnswers(items) == AccountAnswers(items[1..]) + if IsAccountAnswer(items[0].trigger) then 1 else 0
    decreases |items|
  {
    if |items| == 1 {
      assert items[..0] == [] && items[1..] == [];
    } else {
      AnswersHead(items[..|items| - 1]);
      assert items[..|items| - 1][1..] == items[1..][..|items| - 2];
    }
  }

  lemma SeenExtend(h: seq<Entry>, e: Entry)
    ensures Seen(h + [e]) == if e.Saw? then Seen(h) + [e.trigger] else Seen(h)
  {
    assert (h + [e])[..|h|] == h;
  }

  /** A step appends the event it handles, then at most two calls. */
  predicate AddsCalls(h: seq<Entry>, h': seq<Entry>) {
    || h' == h
    || (|h'| == |h| + 1 && h'[|h|].Did? && h' == h + [h'[|h|]])
    || (|h'| == |h| + 2 && h'[|h|].Did? && h'[|h| + 1].Did? && h' == h + [h'[|h|]] + [h'[|h| + 1]])
  }

  lemma AddsCallsSeen(h: seq<Entry>, h': seq<Entry>)
    requires AddsCalls(h, h')
    ensures Seen(h') == Seen(h)
  {
    if h' != h {
      SeenExtend(h, h'[|h|]);
      if |h'| == |h| + 2 {
        SeenExtend(h + [h'[|h|]], h'[|h| + 1]);
      }
    }
  }

  lemma ConsumeAdds(m: Machine, t: Trigger, a: Answers, room: bool)
    ensures AddsCalls(m.trace, Consume(m, t, a, room).m.trace)
  {
    match m.state
    case Initial => InitialAdds(m, t, a, room);
    case Inviting => InvitingAdds(m, t, a);
    case Connected => ConnectedAdds(m, t, a);
    case _ =>
  }

  lemma InitialAdds(m: Machine, t: Trigger, a: Answers, room: bool)
    ensures AddsCalls(m.trace, InitialState(m, t, a, room).m.trace)
  {
  }

  lemma InvitingAdds(m: Machine, t: Trigger, a: Answers)
    ensures AddsCalls(m.trace, InvitingState(m, t, a).trace)
  {
  }

  lemma ConnectedAdds(m: Machine, t: Trigger, a: Answers)
    ensures AddsCalls(m.trace, ConnectedState(m, t, a).trace)
  {
  }

  lemma StepSeen(m: Machine, t: Trigger, a: Answers, room: bool)
    requires !Stopped(m)
    ensures Seen(Step(m, t, a, room).m.trace) == if m.state == Terminating then Seen(m.trace) else Seen(m.trace) + [t]
  {
    if m.state == Terminating {
      SeenExtend(m.trace, Did(Status(m.info.callId, CsTerminated, a.gui)));
    } else {
      var seen := m.(trace := m.trace + [Saw(t)]);
      SeenExtend(m.trace, Saw(t));
      ConsumeAdds(seen, t, a, room);
      AddsCallsSeen(seen.trace, Consume(seen, t, a, room).m.trace);
    }
  }

  /** Which states a step can lead to, and what it leaves alone. */
  lemma StepMoves(m: Machine, t: Trigger, a: Answers, room: bool)
    requires !Stopped(m) && m.state != Initial
    ensures var m' := Step(m, t, a, room).m;
            && m'.state != Initial && m'.info.callId == m.info.callId && Step(m, t, a, room).posted == None
            && (m'.state == Checking ==> m.state == Checking)
            && (m'.state in {Inviting, Connected} ==> m.state in {Checking, Inviting, Connecting, Connected})
            && (m.state != Checking ==> m'.info.sipCallId == m.info.sipCallId)
            && (m.state == Checking ==> (IsAccountAnswer(t) <==> m'.failed || m'.state != Checking))
  {
  }

  /** Leaving INITIAL. */
  lemma InitialMoves(m: Machine, t: Trigger, a: Answers, room: bool)
    requires !Stopped(m) && m.state == Initial && IsCreating(t)
    ensures var o := Step(m, t, a, room);
            && (o.m.state == Initial <==> o.m.failed)
            && (t.GuiMakeCall? ==>
                  && o.m.state in {Initial, Checking} && o.m.info.callId == t.callId
                  && (o.posted.Some? <==> o.m.state == Checking)
                  && (o.posted.Some? ==> IsAccountAnswer(o.posted.value) && room))
            && (t.SipReceive? ==> o.m.state in {Initial, Ringing} && o.posted == None)
            && (o.m.state == Ringing ==> DrawsId(m, t, a) && o.m.info.callId == a.newCallId)
  {
  }

  /** A step in a state other than INITIAL stays on its side; leaving INITIAL decides the side by the event. */
  lemma StepSide(m: Machine, t: Trigger, a: Answers, room: bool)
    requires Inv(m) && !Stopped(m)
    ensures var m' := Step(m, t, a, room).m;
            && (m.state != Initial ==> SideOf(m'.path) == SideOf(m.path))
            && (m.state == Initial && !t.SipReceive? ==> SideOf(m'.path) != Callee)
            && (m.state == Initial && !t.GuiMakeCall? ==> SideOf(m'.path) != Caller)
  {
    var m' := Step(m, t, a, room).m;
    StepKeeps(m, t, a, room);
    assert m.path[|m.path| - 1] == m.state;
    PathGrows(m, t, a, room);
    if m.state != Initial {
      DecidedBy(m.path, m.state);
    }
  }

  predicate EntersBy(state: State, t: Trigger) {
    (state == Checking && t.GuiMakeCall?) || (state == Ringing && t.SipReceive?)
  }

  lemma PathGrows(m: Machine, t: Trigger, a: Answers, room: bool)
    requires !Stopped(m)
    ensures var m' := Step(m, t, a, room).m;
            || m'.path == m.path
            || (m'.path == m.path + [m'.state] && (m.state == Initial ==> EntersBy(m'.state, t)))
  {
  }

  // ---------------------------------------------------------------- each step keeps the invariant

  lemma NewSlotKeeps(creator: Item, info: CallInfo)
    requires creator.Outside? && IsCreating(creator.trigger)
    requires Fresh(Machine(Initial, info, false, [], [Initial]))
    ensures SlotInv(NewSlot(creator, info))
  {
    FreshInv(NewSlot(creator, info).machine);
  }

  lemma StartKeeps(s: Slot)
    requires SlotInv(s) && s.phase == Created
    ensures SlotInv(Start(s))
  {
    AnswersExtend([], s.creator);
    assert [] + [s.creator] == [s.creator];
    StartIds(s);
  }

  lemma StartIds(s: Slot)
    requires OwnIds(s) && s.phase == Created && s.routed == [] && Inv(s.machine) && s.machine.state == Initial
    ensures OwnIds(Start(s))
  {
  }

  lemma PutQueue(s: Slot, item: Item)
    requires Fifo(s) && Born(s) && s.phase != Created
    requires !IsCreating(item.trigger) && (item.Inside? <==> IsAccountAnswer(item.trigger))
    ensures Fifo(Put(s, item)) && Born(Put(s, item))
    ensures AccountAnswers(InHand(s.phase) + Put(s, item).pool) ==
              AccountAnswers(InHand(s.phase) + s.pool) + if item.Inside? then 1 else 0
  {
    AnswersExtend(InHand(s.phase) + s.pool, item);
    AppendLast(InHand(s.phase), s.pool, item);
    AppendLast(s.consumed + InHand(s.phase), s.pool, item);
    PutBorn(s, item);
  }

  lemma AppendLast(a: seq<Item>, b: seq<Item>, x: Item)
    ensures a + b + [x] == a + (b + [x])
  {
  }

  lemma PutBorn(s: Slot, item: Item)
    requires Born(s) && s.phase != Created
    requires !IsCreating(item.trigger) && (item.Inside? <==> IsAccountAnswer(item.trigger))
    ensures Born(Put(s, item))
  {
    assert Put(s, item).routed[0] == s.routed[0];
  }

  /** A routed event; SIP events only reach a slot that has published a SIP call ID. */
  lemma PutKeeps(s: Slot, item: Item)
    requires SlotInv(s) && s.phase != Created
    requires item.Outside? && !IsCreating(item.trigger) && !IsAccountAnswer(item.trigger)
    requires item.trigger.SipReceive? ==> s.sipCallId != 0
    ensures SlotInv(Put(s, item))
  {
    PutQueue(s, item);
    PutIds(s, item);
  }

  lemma PutIds(s: Slot, item: Item)
    requires OwnIds(s) && (item.trigger.SipReceive? ==> s.sipCallId != 0)
    ensures OwnIds(Put(s, item))
  {
    if s.sipCallId == 0 && HasSipEvent(Put(s, item).routed) {
      var i :| 0 <= i <= |s.routed| && Put(s, item).routed[i].trigger.SipReceive?;
      assert i < |s.routed| ==> s.routed[i].trigger.SipReceive?;
    }
  }

  lemma DequeueKeeps(s: Slot)
    requires SlotInv(s) && s.phase == AtLoop && s.pool != [] && s.machine.state != Terminating
    ensures SlotInv(Dequeue(s))
  {
    DequeueQueue(s);
  }

  lemma DequeueQueue(s: Slot)
    requires Fifo(s) && s.phase == AtLoop && s.pool != []
    ensures Fifo(Dequeue(s))
    ensures InHand(Dequeue(s).phase) + Dequeue(s).pool == InHand(s.phase) + s.pool
  {
    assert [s.pool[0]] + s.pool[1..] == s.pool && [] + s.pool == s.pool;
    assert s.consumed + [s.pool[0]] + s.pool[1..] == s.consumed + [] + s.pool;
  }

  lemma HandOver(s: Slot)
    requires SlotInv(s) && (s.phase.Handling? || s.phase.Sending?)
    ensures var item := s.phase.item;
            && InHand(s.phase) == [item]
            && (s.consumed + [item]) + [] + s.pool == s.routed
            && Triggers(s.consumed + [item]) == Triggers(s.consumed) + [item.trigger]
            && AccountAnswers(s.pool) + (if IsAccountAnswer(item.trigger) then 1 else 0) ==
               (if s.machine.state == Checking && !s.machine.failed then 1 else 0)
            && (s.machine.state == Initial ==> item == s.creator)
  {
    var item := s.phase.item;
    AnswersHead([item] + s.pool);
    assert ([item] + s.pool)[1..] == s.pool;
    assert s.routed[|s.consumed|] == item;
    assert s.consumed + [item] + [] + s.pool == s.consumed + [item] + s.pool;
  }

  /** The INVITE goes out in two steps (BeginInvite, FinishInvite), not in Handle. */
  predicate SendsInvite(s: Slot, a: Answers) {
    s.phase.Handling? && s.machine.state == Checking && s.phase.item.trigger.AccountOk? && a.accountFound
  }

  lemma HandleKeeps(s: Slot, a: Answers, room: bool, draw: nat)
    requires SlotInv(s) && s.phase.Handling? && draw > 0 && !SendsInvite(s, a)
    ensures SlotInv(Handle(s, a, room, draw))
  {
    HandledInv(s, a, room, draw);
    if s.machine.state == Initial {
      InitialQueue(s, a, room, draw);
      InitialIds(s, a, room, draw);
    } else {
      LaterQueue(s, a, room, draw);
      LaterIds(s, a, room, draw);
    }
  }

  lemma HandledInv(s: Slot, a: Answers, room: bool, draw: nat)
    requires SlotInv(s) && s.phase.Handling?
    ensures Inv(Handle(s, a, room, draw).machine)
  {
    StepKeeps(s.machine, s.phase.item.trigger, a, room);
  }

  lemma LaterQueue(s: Slot, a: Answers, room: bool, draw: nat)
    requires SlotInv(s) && s.phase.Handling? && s.machine.state != Initial && !SendsInvite(s, a)
    ensures var s' := Handle(s, a, room, draw); Fifo(s') && Born(s') && PhaseOk(s')
  {
    StepSeen(s.machine, s.phase.item.trigger, a, room);
    StepMoves(s.machine, s.phase.item.trigger, a, room);
    SettlingIs(s, a, room, draw);
    SettlingKeeps(s, Step(s.machine, s.phase.item.trigger, a, room).m);
  }

  /** The slot after the machine became m and posted nothing. */
  function Settling(s: Slot, m: Machine): Slot
    requires s.phase.Handling?
  {
    s.(phase := NextPhase(s, m), machine := m, consumed := s.consumed + [s.phase.item])
  }

  lemma SettlingIs(s: Slot, a: Answers, room: bool, draw: nat)
    requires s.phase.Handling? && s.machine.state != Initial
    ensures var o := Step(s.machine, s.phase.item.trigger, a, room);
            o.posted == None ==> Handle(s, a, room, draw) == Settling(s, o.m)
  {
  }

  lemma SettlingKeeps(s: Slot, m: Machine)
    requires SlotInv(s) && s.phase.Handling? && s.machine.state != Initial
    requires m.state != Initial && Seen(m.trace) == Seen(s.machine.trace) + [s.phase.item.trigger]
    requires m.state == Checking ==> s.machine.state == Checking
    requires s.machine.state == Checking
            ==> (IsAccountAnswer(s.phase.item.trigger) <==> m.failed || m.state != Checking)
    ensures var s' := Settling(s, m); Fifo(s') && Born(s') && PhaseOk(s')
  {
    HandOver(s);
    assert [] + s.pool == s.pool;
  }

  lemma LaterIds(s: Slot, a: Answers, room: bool, draw: nat)
    requires SlotInv(s) && s.phase.Handling? && s.machine.state != Initial && !SendsInvite(s, a)
    ensures OwnIds(Handle(s, a, room, draw))
  {
    StepMoves(s.machine, s.phase.item.trigger, a, room);
    StepSide(s.machine, s.phase.item.trigger, a, room);
    DecidedBy(s.machine.path, s.machine.state);
    if s.machine.state == Checking {
      CheckingWithoutInvite(s.machine, s.phase.item.trigger, a, room);
    }
  }

  lemma CheckingWithoutInvite(m: Machine, t: Trigger, a: Answers, room: bool)
    requires !Stopped(m) && m.state == Checking && !(t.AccountOk? && a.accountFound)
    ensures Step(m, t, a, room).m.state in {Checking, Terminating}
  {
  }

  /** What a slot's queue looks like after INITIAL, for any outcome with these properties. */
  lemma InitialQueue(s: Slot, a: Answers, room: bool, draw: nat)
    requires SlotInv(s) && s.phase.Handling? && s.machine.state == Initial
    ensures var s' := Handle(s, a, room, draw); Fifo(s') && Born(s') && PhaseOk(s')
  {
    var t := s.phase.item.trigger;
    HandOver(s);
    StepSeen(s.machine, t, a, room);
    InitialMoves(s.machine, t, a, room);
    if Step(s.machine, t, a, room).posted.Some? {
      PostedQueue(s, a, room, draw);
    } else {
      QuietQueue(s, Handle(s, a, room, draw));
    }
  }

  /** The machine has left INITIAL or failed, and posted nothing. */
  lemma QuietQueue(s: Slot, s': Slot)
    requires SlotInv(s) && s.phase.Handling? && s.machine.state == Initial
    requires s'.phase == NextPhase(s, s'.machine) && s'.consumed == s.consumed + [s.phase.item]
    requires s'.creator == s.creator && s'.pool == s.pool && s'.routed == s.routed
    requires s'.machine.state in {Initial, Ringing} && (s'.machine.state == Initial <==> s'.machine.failed)
    requires Seen(s'.machine.trace) == Seen(s.machine.trace) + [s.phase.item.trigger]
    ensures Fifo(s') && Born(s') && PhaseOk(s')
  {
    HandOver(s);
    assert [] + s.pool == s.pool;
  }

  lemma PostedQueue(s: Slot, a: Answers, room: bool, draw: nat)
    requires SlotInv(s) && s.phase.Handling? && s.machine.state == Initial
    requires Step(s.machine, s.phase.item.trigger, a, room).posted.Some?
    ensures var s' := Handle(s, a, room, draw); Fifo(s') && Born(s') && PhaseOk(s')
  {
    var t := s.phase.item.trigger;
    var o := Step(s.machine, t, a, room);
    HandOver(s);
    StepSeen(s.machine, t, a, room);
    InitialMoves(s.machine, t, a, room);
    HandleIsPosting(s, a, room, draw);
    PostingKeeps(s, o.m, Inside(o.posted.value));
  }

  /** The slot after the machine became m and posted x. */
  function Posting(s: Slot, m: Machine, x: Item): Slot
    requires s.phase.Handling?
  {
    Put(Settling(s, m), x)
  }

  lemma HandleIsPosting(s: Slot, a: Answers, room: bool, draw: nat)
    requires s.phase.Handling?
    ensures var o := Step(s.machine, s.phase.item.trigger, a, room);
            o.posted.Some? && !DrawsId(s.machine, s.phase.item.trigger, a) ==>
              Handle(s, a, room, draw) == Posting(s, o.m, Inside(o.posted.value))
  {
  }

  lemma PostingKeeps(s: Slot, m: Machine, x: Item)
    requires SlotInv(s) && s.phase.Handling? && s.machine.state == Initial
    requires m.state == Checking && !m.failed && Seen(m.trace) == Seen(s.machine.trace) + [s.phase.item.trigger]
    requires x.Inside? && IsAccountAnswer(x.trigger)
    ensures var s' := Posting(s, m, x); Fifo(s') && Born(s') && PhaseOk(s')
  {
    HandOver(s);
    var before := Settling(s, m);
    assert [] + s.pool == s.pool;
    BeforePosting(s, before);
    PutQueue(before, x);
  }

  lemma BeforePosting(s: Slot, s': Slot)
    requires SlotInv(s) && s.phase.Handling? && s.machine.state == Initial
    requires s'.phase == NextPhase(s, s'.machine) && s'.consumed == s.consumed + [s.phase.item]
    requires s'.creator == s.creator && s'.pool == s.pool && s'.routed == s.routed
    requires s'.machine.state == Checking && Seen(s'.machine.trace) == Seen(s.machine.trace) + [s.phase.item.trigger]
    ensures Fifo(s') && Born(s')
  {
    HandOver(s);
  }

  lemma InitialIds(s: Slot, a: Answers, room: bool, draw: nat)
    requires SlotInv(s) && s.phase.Handling? && s.machine.state == Initial && draw > 0
    ensures OwnIds(Handle(s, a, room, draw))
  {
    var t := s.phase.item.trigger;
    HandOver(s);
    InitialMoves(s.machine, t, a, room);
    StepSide(s.machine, t, a, room);
  }

  lemma TerminateKeeps(s: Slot, a: Answers)
    requires SlotInv(s) && s.phase == AtLoop && s.machine.state == Terminating
    ensures SlotInv(Terminate(s, a))
  {
    TerminatedQueue(s, a);
    TerminatedIds(s, a);
    StepKeeps(s.machine, InvalidEvent, a, false);
  }

  lemma TerminatedQueue(s: Slot, a: Answers)
    requires SlotInv(s) && s.phase == AtLoop && s.machine.state == Terminating
    ensures var s' := Terminate(s, a); Fifo(s') && Born(s') && PhaseOk(s')
  {
    StepSeen(s.machine, InvalidEvent, a, false);
    StepMoves(s.machine, InvalidEvent, a, false);
  }

  lemma TerminatedIds(s: Slot, a: Answers)
    requires SlotInv(s) && s.phase == AtLoop && s.machine.state == Terminating
    ensures OwnIds(Terminate(s, a))
  {
    StepMoves(s.machine, InvalidEvent, a, false);
    StepSide(s.machine, InvalidEvent, a, false);
  }

  lemma BeginInviteKeeps(s: Slot, a: Answers, result: int, mark: nat)
    requires SlotInv(s) && SendsInvite(s, a)
    ensures SlotInv(BeginInvite(s, result, mark))
  {
    DecidedBy(s.machine.path, Checking);
  }

  lemma FinishInviteKeeps(s: Slot, a: Answers)
    requires SlotInv(s) && s.phase.Sending?
    ensures SlotInv(FinishInvite(s, a))
  {
    var b := a.(accountFound := true, inviteResult := s.phase.result);
    StepKeeps(s.machine, AccountOk, b, false);
    StepSide(s.machine, AccountOk, b, false);
    SentMoves(s.machine, b);
    FinishQueue(s, a);
  }

  /** CHECKING handles ACCOUNT_OK by sending the INVITE. */
  lemma SentMoves(m: Machine, a: Answers)
    requires !Stopped(m) && m.state == Checking && a.accountFound
    ensures var m' := Step(m, AccountOk, a, false).m;
            && m'.info.callId == m.info.callId
            && (if a.inviteResult == -1 then m'.state == Checking && m'.failed
                else m'.state == Inviting && m'.info.sipCallId == a.inviteResult)
  {
  }

  lemma FinishQueue(s: Slot, a: Answers)
    requires SlotInv(s) && s.phase.Sending?
    ensures var s' := FinishInvite(s, a); Fifo(s') && Born(s') && PhaseOk(s')
  {
    var b := a.(accountFound := true, inviteResult := s.phase.result);
    HandOver(s);
    StepSeen(s.machine, AccountOk, b, false);
    SentMoves(s.machine, b);
    assert [] + s.pool == s.pool;
  }

  lemma WakeKeeps(s: Slot)
    requires SlotInv(s) && s.phase == Asleep
    ensures SlotInv(Wake(s))
  {
  }

  lemma SleepKeeps(s: Slot)
    requires SlotInv(s) && s.phase == AtLoop
    ensures SlotInv(s.(phase := Asleep))
  {
  }

  lemma ShutdownKeeps(s: Slot)
    requires SlotInv(s)
    ensures SlotInv(s.(doShutdown := true))
  {
  }
}
