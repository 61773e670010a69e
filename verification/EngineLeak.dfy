/** queuesLock, which a failed INVITE never gives back: how it is lost and what stands still from then on. */
module EngineLeak {
  import opened Options
  import opened Events
  import opened Transactions
  import opened CallMachine
  import opened CallSlots
  import opened SlotSearch
  import opened CallEngine
  import opened EngineInvariant
  import opened EngineRouting
  import opened EngineTheorems

  // ---------------------------------------------------------------- how it is lost

  /** queuesLock is lost exactly when a machine fails to send its INVITE. */
  lemma LeaksIff(maxCalls: nat, maxEvents: nat, actions: seq<Action>, a: Action)
    requires maxEvents >= 2 && Enabled(Execute(Boot(maxCalls, maxEvents), actions), a)
    ensures var e := Execute(Boot(maxCalls, maxEvents), actions);
            Fire(e, a).lock == Leaked <==>
              e.lock == Leaked || (a.DoFinishInvite? && e.slots[a.pos].value.phase.result == -1)
  {
    ExecuteKeeps(maxCalls, maxEvents, actions);
    var e := Execute(Boot(maxCalls, maxEvents), actions);
    LockAfter(e, a);
  }

  lemma LockAfter(e: Engine, a: Action)
    requires Enabled(e, a) && LinksOk(e.slots, e.lock, e.gui.router, e.sip.router)
    ensures Fire(e, a).lock == Leaked <==>
              e.lock == Leaked || (a.DoFinishInvite? && e.slots[a.pos].value.phase.result == -1)
  {
    if a.DoRoute? {
      RouteIs(e, a.src, a.info, a.told);
    } else if a.DoFinishInvite? {
      assert SlotLinked(e.slots[a.pos].value, a.pos, e.lock, e.gui.router, e.sip.router);
    }
  }

  /** A machine is about to handle the answer that its account is valid, and nobody holds the lock. */
  predicate AboutToInvite(e: Engine, p: nat) {
    && e.lock == Free && InUse(e, p)
    && var s := e.slots[p].value;
       && s.phase == AtLoop && s.machine.state == Checking && !s.machine.failed
       && s.pool != [] && s.pool[0].trigger == AccountOk
  }

  /** It needs no more than a refusal of the INVITE by the SIP stack to lose it. */
  lemma FailedInviteLeaks(e: Engine, p: nat, a: Answers)
    requires AboutToInvite(e, p) && a.accountFound && a.inviteResult == -1
    ensures Enabled(e, DoDequeue(p))
    ensures var f := Fire(e, DoDequeue(p));
            Enabled(f, DoBeginInvite(p, a)) &&
            var g := Fire(f, DoBeginInvite(p, a));
            Enabled(g, DoFinishInvite(p, a)) && Fire(g, DoFinishInvite(p, a)).lock == Leaked
  {
  }

  /** A run is continued by one enabled action. */
  lemma Then(e: Engine, actions: seq<Action>, a: Action)
    requires Enabled(Execute(e, actions), a)
    ensures Execute(e, actions + [a]) == Fire(Execute(e, actions), a)
  {
    assert (actions + [a])[..|actions|] == actions;
  }

  const CALL := GuiMakeCall(1, Some("bob"), 0)
  const REFUSED := Answers(true, true, true, Some(("from", "to")), true, -1, 0, 0)

  function NewInfo(): CallInfo {
    CallInfo(0, 0, None, None, None, None, 0, 0, seq(MAX_TRANSACTION_COUNT, _ => Transaction(-1, 0)))
  }

  /** One call is on its way; the lock is free and the first slot too. */
  predicate Arriving1(e: Engine, item: Item) {
    && e.lock == Free && e.maxEvents >= 2 && |e.slots| >= 1 && e.slots[0].None?
    && item.trigger.GuiMakeCall? && item.trigger.callee.Some?
    && ((e.gui.router == Idle && e.gui.pool == [item]) || e.gui.router == Holding(item))
  }

  /** Its slot is in this condition. */
  predicate InSlot(e: Engine, s: Slot) {
    e.lock == Free && e.maxEvents >= 2 && |e.slots| >= 1 && e.slots[0] == Some(s)
  }

  lemma Accepted1(maxCalls: nat, maxEvents: nat) returns (item: Item)
    requires maxCalls >= 1 && maxEvents >= 2
    ensures Arriving1(Fire(Boot(maxCalls, maxEvents), DoAccept(CALL)), item)
    ensures Fire(Boot(maxCalls, maxEvents), DoAccept(CALL)).gui.router == Idle
  {
    item := Outside(0, CALL.(callId := NextCallId(Boot(maxCalls, maxEvents))), 1);
    assert [] + [item] == [item];
  }

  lemma Taken1(e: Engine, item: Item)
    requires Arriving1(e, item) && e.gui.router == Idle
    ensures Enabled(e, DoTake(Gui))
    ensures var f := Fire(e, DoTake(Gui)); Arriving1(f, item) && f.gui.router == Holding(item)
  {
  }

  lemma Routed1(e: Engine, item: Item)
    requires Arriving1(e, item) && e.gui.router == Holding(item)
    ensures Enabled(e, DoRoute(Gui, NewInfo(), true))
    ensures var f := Fire(e, DoRoute(Gui, NewInfo(), true));
            InSlot(f, NewSlot(item, NewInfo())) && f.gui.router == Placing(item, 0)
  {
    RouteIs(e, Gui, NewInfo(), true);
    assert FirstFree(e.slots) == 0;
  }

  /** What the slot's thread then finds. */
  function Begun(item: Item): Slot {
    NewSlot(item, NewInfo()).(pool := [item], routed := [item], phase := AtLoop)
  }

  lemma Placed1(e: Engine, item: Item)
    requires InSlot(e, NewSlot(item, NewInfo())) && e.gui.router == Placing(item, 0)
    ensures Enabled(e, DoPlace(Gui)) && InSlot(Fire(e, DoPlace(Gui)), Begun(item))
  {
    assert [] + [item] == [item];
  }

  lemma Handled1(e: Engine, item: Item)
    requires InSlot(e, Begun(item)) && item.trigger.GuiMakeCall? && item.trigger.callee.Some?
    ensures Enabled(e, DoDequeue(0))
    ensures var f := Fire(e, DoDequeue(0));
            Enabled(f, DoHandle(0, REFUSED)) && AboutToInvite(Fire(f, DoHandle(0, REFUSED)), 0)
  {
  }

  /** From the start, six steps lead a call to the point where its INVITE is next. */
  lemma CallArrives(maxCalls: nat, maxEvents: nat) returns (actions: seq<Action>)
    requires maxCalls >= 1 && maxEvents >= 2
    ensures AboutToInvite(Execute(Boot(maxCalls, maxEvents), actions), 0)
  {
    var e := Boot(maxCalls, maxEvents);
    var item := Accepted1(maxCalls, maxEvents);
    actions := [];
    Then(e, actions, DoAccept(CALL));
    actions := actions + [DoAccept(CALL)];
    Taken1(Execute(e, actions), item);
    Then(e, actions, DoTake(Gui));
    actions := actions + [DoTake(Gui)];
    Routed1(Execute(e, actions), item);
    Then(e, actions, DoRoute(Gui, NewInfo(), true));
    actions := actions + [DoRoute(Gui, NewInfo(), true)];
    Placed1(Execute(e, actions), item);
    Then(e, actions, DoPlace(Gui));
    actions := actions + [DoPlace(Gui)];
    Handled1(Execute(e, actions), item);
    Then(e, actions, DoDequeue(0));
    actions := actions + [DoDequeue(0)];
    Then(e, actions, DoHandle(0, REFUSED));
    actions := actions + [DoHandle(0, REFUSED)];
  }

  lemma LeakRun(maxCalls: nat, maxEvents: nat) returns (actions: seq<Action>)
    requires maxCalls >= 1 && maxEvents >= 2
    ensures Execute(Boot(maxCalls, maxEvents), actions).lock == Leaked
  {
    var e := Boot(maxCalls, maxEvents);
    actions := CallArrives(maxCalls, maxEvents);
    FailedInviteLeaks(Execute(e, actions), 0, REFUSED);
    Then(e, actions, DoDequeue(0));
    actions := actions + [DoDequeue(0)];
    Then(e, actions, DoBeginInvite(0, REFUSED));
    actions := actions + [DoBeginInvite(0, REFUSED)];
    Then(e, actions, DoFinishInvite(0, REFUSED));
    actions := actions + [DoFinishInvite(0, REFUSED)];
  }

  /** So with room for a call the lock can be lost, and without it never is. */
  lemma LeakReachableIff(maxCalls: nat, maxEvents: nat)
    requires maxEvents >= 2
    ensures (exists actions :: Execute(Boot(maxCalls, maxEvents), actions).lock == Leaked) <==> maxCalls >= 1
  {
    if maxCalls >= 1 {
      var actions := LeakRun(maxCalls, maxEvents);
    } else {
      forall actions ensures Execute(Boot(maxCalls, maxEvents), actions).lock == Free {
        NothingToLose(maxEvents, actions);
      }
    }
  }

  lemma {:induction false} NothingToLose(maxEvents: nat, actions: seq<Action>)
    requires maxEvents >= 2
    ensures Execute(Boot(0, maxEvents), actions).lock == Free
    decreases |actions|
  {
    if actions != [] {
      var before, a := actions[..|actions| - 1], actions[|actions| - 1];
      NothingToLose(maxEvents, before);
      SizesKept(0, maxEvents, before);
      var f := Execute(Boot(0, maxEvents), before);
      if Enabled(f, a) { LockStaysFree(f, a); }
    }
  }

  lemma LockStaysFree(e: Engine, a: Action)
    requires e.slots == [] && e.lock == Free && Enabled(e, a)
    ensures Fire(e, a).lock == Free
  {
    if a.DoRoute? { RouteIs(e, a.src, a.info, a.told); }
  }

  // ---------------------------------------------------------------- what stands still from then on

  /** From then on a dispatcher thread whose message needs a lookup or a new slot never gets past it. */
  lemma {:induction false} LeakBlocksRouting(e: Engine, actions: seq<Action>, src: Source, item: Item)
    requires EngineInv(e) && e.lock == Leaked
    requires FrontOf(e, src).router == Holding(item) && RouteNeedsLock(item.trigger)
    ensures var f := Execute(e, actions);
            EngineInv(f) && f.lock == Leaked && FrontOf(f, src).router == Holding(item)
    decreases |actions|
  {
    if actions != [] {
      var before, a := actions[..|actions| - 1], actions[|actions| - 1];
      LeakBlocksRouting(e, before, src, item);
      var f := Execute(e, before);
      if Enabled(f, a) {
        StepKeepsEngine(f, a);
        LockAfter(f, a);
        RouterStays(f, a, src, item);
      }
    }
  }

  lemma RouterStays(e: Engine, a: Action, src: Source, item: Item)
    requires Enabled(e, a) && e.lock == Leaked
    requires FrontOf(e, src).router == Holding(item) && RouteNeedsLock(item.trigger)
    ensures FrontOf(Fire(e, a), src).router == Holding(item)
  {
    if a.DoRoute? {
      RouteIs(e, a.src, a.info, a.told);
    }
  }

  /** What no step does to a slot while the lock is lost: give it an ID, stop it, or bring its call a stage further. */
  predicate NoProgress(s: Slot, s': Slot) {
    && s'.creator == s.creator && s'.callId == s.callId && s'.sipCallId == s.sipCallId && s'.doShutdown == s.doShutdown
    && (s.machine.state == Initial ==> s'.machine.state == Initial)
    && (s'.machine.state in {Checking, Inviting, Ringing} ==> s'.machine.state == s.machine.state)
  }

  /** Every slot in use was in use before and has made no progress. */
  predicate Standstill(slots: seq<Option<Slot>>, slots': seq<Option<Slot>>) {
    && |slots'| == |slots|
    && forall p :: 0 <= p < |slots'| && slots'[p].Some? ==>
       slots[p].Some? && NoProgress(slots[p].value, slots'[p].value)
  }

  /** An outgoing call whose GUI_MAKE_CALL has not been handled. */
  predicate Unhandled(s: Slot) {
    && s.machine.state == Initial && !s.machine.failed
    && s.creator.trigger.GuiMakeCall? && s.creator.trigger.callee.Some?
    && (s.phase == Created || s.phase == AtLoop || s.phase == Handling(s.creator))
  }

  /** No call is created, none gets past INITIAL or from CHECKING to INVITING, and shutting down reaches no machine. */
  lemma {:induction false} LeakStopsCalls(e: Engine, actions: seq<Action>)
    requires EngineInv(e) && e.lock == Leaked
    ensures var f := Execute(e, actions);
            EngineInv(f) && f.lock == Leaked && !Enabled(f, DoShutdownAll) && Standstill(e.slots, f.slots)
    decreases |actions|
  {
    if actions != [] {
      var before, a := actions[..|actions| - 1], actions[|actions| - 1];
      LeakStopsCalls(e, before);
      var f := Execute(e, before);
      if Enabled(f, a) {
        StaysLeaked(f, a);
        StepHolds(f, a);
        StandstillOn(e.slots, f.slots, Fire(f, a).slots);
      }
    }
    LockTaken(Execute(e, actions));
  }

  lemma StaysLeaked(e: Engine, a: Action)
    requires EngineInv(e) && e.lock == Leaked && Enabled(e, a)
    ensures EngineInv(Fire(e, a)) && Fire(e, a).lock == Leaked
  {
    StepKeepsEngine(e, a);
    LockAfter(e, a);
  }

  lemma LockTaken(e: Engine)
    requires e.lock == Leaked
    ensures !Enabled(e, DoShutdownAll)
  {
  }

  lemma StandstillOn(a: seq<Option<Slot>>, b: seq<Option<Slot>>, c: seq<Option<Slot>>)
    requires Standstill(a, b) && Standstill(b, c)
    ensures Standstill(a, c)
  {
  }

  lemma StepHolds(e: Engine, a: Action)
    requires EngineInv(e) && e.lock == Leaked && Enabled(e, a)
    ensures Standstill(e.slots, Fire(e, a).slots)
  {
    match a
    case DoHandle(p, answers) =>
      HandleHolds(e, p, answers);
      assert Fire(e, a) == HandleStep(e, p, answers);
    case DoTerminate(p, answers) =>
      TerminateHolds(e.slots[p].value, answers);
      OneSlotHolds(e.slots, p, Terminate(e.slots[p].value, answers));
      assert Fire(e, a) == SetSlot(e, p, Terminate(e.slots[p].value, answers));
    case DoBeginInvite(p, answers) =>
    case DoFinishInvite(p, answers) => NobodySends(e, a);
    case DoDequeue(_) => LoopHolds(e, a);
    case DoSleep(_) => LoopHolds(e, a);
    case DoWake(_) => LoopHolds(e, a);
    case DoDestroy(_) => LoopHolds(e, a);
    case DoShutdownAll =>
    case _ => RouterHolds(e, a);
  }

  /** The lock is never lost while a machine sends its INVITE. */
  lemma NobodySends(e: Engine, a: Action)
    requires e.lock == Leaked && LinksOk(e.slots, e.lock, e.gui.router, e.sip.router)
    ensures a.DoFinishInvite? ==> !Enabled(e, a)
  {
    if a.DoFinishInvite? && InUse(e, a.pos) {
      assert SlotLinked(e.slots[a.pos].value, a.pos, e.lock, e.gui.router, e.sip.router);
    }
  }

  lemma LoopHolds(e: Engine, a: Action)
    requires Enabled(e, a) && (a.DoDequeue? || a.DoSleep? || a.DoWake? || a.DoDestroy?)
    ensures Standstill(e.slots, Fire(e, a).slots)
  {
  }

  lemma RouterHolds(e: Engine, a: Action)
    requires e.lock == Leaked && Enabled(e, a) && (a.DoAccept? || a.DoTake? || a.DoRoute? || a.DoPlace?)
    ensures Standstill(e.slots, Fire(e, a).slots)
  {
    match a
    case DoAccept(t) => assert Fire(e, a) == Accept(e, t) && Accept(e, t).slots == e.slots;
    case DoTake(src) => assert Fire(e, a) == Take(e, src) && Take(e, src).slots == e.slots;
    case DoRoute(src, info, told) =>
      RouteHolds(e, src, info, told);
      assert Fire(e, a) == Route(e, src, info, told);
    case DoPlace(src) =>
      PlaceHolds(e, src);
      assert Fire(e, a) == Place(e, src);
  }

  lemma OneSlotHolds(slots: seq<Option<Slot>>, p: nat, s: Slot)
    requires p < |slots| && slots[p].Some? && NoProgress(slots[p].value, s)
    ensures Standstill(slots, slots[p := Some(s)])
  {
  }

  lemma RouteHolds(e: Engine, src: Source, info: CallInfo, told: bool)
    requires e.lock == Leaked && CanRoute(e, src, info)
    ensures Route(e, src, info, told).slots == e.slots
  {
    RouteIs(e, src, info, told);
  }

  lemma PlaceHolds(e: Engine, src: Source)
    requires Enabled(e, DoPlace(src))
    ensures Standstill(e.slots, Place(e, src).slots)
  {
  }

  lemma TerminateHolds(s: Slot, a: Answers)
    requires s.machine.state == Terminating
    ensures NoProgress(s, Terminate(s, a))
  {
  }

  lemma HandleHolds(e: Engine, p: nat, a: Answers)
    requires EngineInv(e) && e.lock == Leaked && CanHandle(e, p, a)
    ensures Standstill(e.slots, HandleStep(e, p, a).slots)
  {
    var s := e.slots[p].value;
    LiveSlotOk(e, p);
    var b := a.(newCallId := NextCallId(e));
    HandledHolds(s, b, |s.pool| < e.maxEvents, |e.ids.drawnFor| + 1);
    OneSlotHolds(e.slots, p, Handle(s, b, |s.pool| < e.maxEvents, |e.ids.drawnFor| + 1));
  }

  lemma HandledHolds(s: Slot, a: Answers, room: bool, draw: nat)
    requires SlotInv(s) && s.phase.Handling? && !SendsInvite(s, a) && !HandleNeedsLock(s, a)
    ensures NoProgress(s, Handle(s, a, room, draw))
  {
    HandledKeepsIds(s, a, room, draw);
    if s.machine.state == Initial {
      HandOver(s);
      QuietInInitial(s.machine, s.phase.item.trigger, a, room);
    } else {
      QuietLater(s.machine, s.phase.item.trigger, a, room);
    }
  }

  lemma HandledKeepsIds(s: Slot, a: Answers, room: bool, draw: nat)
    requires s.phase.Handling? && !HandleNeedsLock(s, a)
    ensures var s' := Handle(s, a, room, draw);
            && s'.machine == Step(s.machine, s.phase.item.trigger, a, room).m
            && s'.creator == s.creator && s'.callId == s.callId && s'.sipCallId == s.sipCallId
            && s'.doShutdown == s.doShutdown
  {
  }

  lemma QuietInInitial(m: Machine, t: Trigger, a: Answers, room: bool)
    requires !Stopped(m) && m.state == Initial && IsCreating(t)
    requires !DrawsId(m, t, a) && !(t.GuiMakeCall? && t.callee.Some?)
    ensures Step(m, t, a, room).m.state == Initial
  {
  }

  lemma QuietLater(m: Machine, t: Trigger, a: Answers, room: bool)
    requires !Stopped(m) && m.state != Initial && !(m.state == Checking && t.AccountOk? && a.accountFound)
    ensures var state := Step(m, t, a, room).m.state;
            state in {Checking, Inviting, Ringing} ==> state == m.state
  {
  }

  /** The call whose GUI_MAKE_CALL waits for the lock keeps its slot for good, with that event never consumed. */
  lemma LeakKeepsSlot(e: Engine, actions: seq<Action>, p: nat)
    requires EngineInv(e) && e.lock == Leaked && InUse(e, p) && Unhandled(e.slots[p].value)
    ensures var f := Execute(e, actions);
            && InUse(f, p) && Unhandled(f.slots[p].value) && f.slots[p].value.consumed == []
            && (e.slots[p].value.phase.Handling? ==> f.slots[p].value.phase == e.slots[p].value.phase)
  {
    UnhandledOnRun(e, actions, p);
    LiveSlotOk(Execute(e, actions), p);
  }

  lemma {:induction false} UnhandledOnRun(e: Engine, actions: seq<Action>, p: nat)
    requires EngineInv(e) && e.lock == Leaked && InUse(e, p) && Unhandled(e.slots[p].value)
    ensures var f := Execute(e, actions);
            && EngineInv(f) && f.lock == Leaked
            && p < |f.slots| && StaysUnhandled(e.slots[p].value, f.slots[p])
    decreases |actions|
  {
    if actions != [] {
      var before, a := actions[..|actions| - 1], actions[|actions| - 1];
      UnhandledOnRun(e, before, p);
      var f := Execute(e, before);
      if Enabled(f, a) {
        StaysLeaked(f, a);
        StillUnhandled(f, a, p);
      }
    }
  }

  /** One step leaves it so. */
  predicate StaysUnhandled(s: Slot, slot': Option<Slot>) {
    slot'.Some? && Unhandled(slot'.value) && (s.phase.Handling? ==> slot'.value.phase == s.phase)
  }

  lemma StillUnhandled(e: Engine, a: Action, p: nat)
    requires EngineInv(e) && e.lock == Leaked && Enabled(e, a) && InUse(e, p) && Unhandled(e.slots[p].value)
    ensures p < |Fire(e, a).slots| && StaysUnhandled(e.slots[p].value, Fire(e, a).slots[p])
  {
    if a.DoHandle? {
      OtherHandled(e, a.pos, a.answers, p);
    } else if a.DoFinishInvite? {
      NobodySends(e, a);
    } else if a.DoAccept? || a.DoTake? || a.DoRoute? || a.DoPlace? {
      RouterUnhandled(e, a, p);
    } else {
      HasCreator(e, p);
      LoopUnhandled(e, a, p);
    }
  }

  lemma RouterUnhandled(e: Engine, a: Action, p: nat)
    requires FrontsOk(e) && e.lock == Leaked && Enabled(e, a) && InUse(e, p) && Unhandled(e.slots[p].value)
    requires a.DoAccept? || a.DoTake? || a.DoRoute? || a.DoPlace?
    ensures p < |Fire(e, a).slots| && StaysUnhandled(e.slots[p].value, Fire(e, a).slots[p])
  {
    match a
    case DoAccept(t) => assert Fire(e, a) == Accept(e, t) && Accept(e, t).slots == e.slots;
    case DoTake(src) => assert Fire(e, a) == Take(e, src) && Take(e, src).slots == e.slots;
    case DoRoute(src, info, told) =>
      RouteHolds(e, src, info, told);
      assert Fire(e, a) == Route(e, src, info, told);
    case DoPlace(src) =>
      PlacedUnhandled(e, src, p);
      assert Fire(e, a) == Place(e, src);
  }

  lemma HasCreator(e: Engine, p: nat)
    requires EngineInv(e) && InUse(e, p) && Unhandled(e.slots[p].value)
    ensures var s := e.slots[p].value; s.phase == AtLoop ==> s.pool != [] && s.pool[0] == s.creator
  {
    LiveSlotOk(e, p);
    CreatorFirst(e.slots[p].value);
  }

  /** What such a slot waits for, it has in hand or at the head of its pool. */
  lemma CreatorFirst(s: Slot)
    requires Fifo(s) && Born(s) && Unhandled(s)
    ensures s.phase == AtLoop ==> s.pool != [] && s.pool[0] == s.creator
  {
  }

  lemma OtherHandled(e: Engine, q: nat, a: Answers, p: nat)
    requires EngineInv(e) && e.lock == Leaked && CanHandle(e, q, a) && InUse(e, p) && Unhandled(e.slots[p].value)
    ensures var f := Fire(e, DoHandle(q, a)); p < |f.slots| && f.slots[p] == e.slots[p]
  {
    assert q != p && Fire(e, DoHandle(q, a)) == HandleStep(e, q, a);
  }

  lemma PlacedUnhandled(e: Engine, src: Source, p: nat)
    requires Enabled(e, DoPlace(src)) && InUse(e, p) && Unhandled(e.slots[p].value)
    requires PlacingOk(e.slots, FrontOf(e, src).router)
    ensures p < |Place(e, src).slots| && StaysUnhandled(e.slots[p].value, Place(e, src).slots[p])
  {
  }

  lemma LoopUnhandled(e: Engine, a: Action, p: nat)
    requires e.lock == Leaked && Enabled(e, a) && InUse(e, p) && Unhandled(e.slots[p].value)
    requires a.DoDequeue? || a.DoTerminate? || a.DoBeginInvite? || a.DoSleep? || a.DoWake? || a.DoDestroy?
             || a.DoShutdownAll?
    requires var s := e.slots[p].value; s.phase == AtLoop ==> s.pool != [] && s.pool[0] == s.creator
    ensures p < |Fire(e, a).slots| && StaysUnhandled(e.slots[p].value, Fire(e, a).slots[p])
  {
  }
}
