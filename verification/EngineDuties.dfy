/** What the call engine must do with messages, with a request to shut down and with queuesLock, on every run. */
module EngineDuties {
  import opened Options
  import opened Events
  import opened Transactions
  import opened CallMachine
  import opened CallSafety
  import opened CallSlots
  import opened SlotSearch
  import opened CallEngine
  import opened EngineInvariant
  import opened EngineRouting
  import opened EngineTheorems

  // ---------------------------------------------------------------- the registrar gets its events

  /** The five events that concern registrations. */
  predicate ForRegistrar(t: Trigger) {
    && t.SipReceive?
    && t.sip.kind in {RegistrationNew, RegistrationSuccess, RegistrationFailure, RegistrationRefreshed,
                      RegistrationTerminated}
  }

  predicate NoneForRegistrar(items: seq<Item>) {
    forall i :: 0 <= i < |items| ==> !ForRegistrar(items[i].trigger)
  }

  /** The registrar has been given such events only, and no machine and no refusal has one. */
  predicate Sorted(e: Engine) {
    && (forall i :: 0 <= i < |e.registrar| ==> ForRegistrar(e.registrar[i].trigger))
    && (forall i :: 0 <= i < |e.refused| ==> !ForRegistrar(e.refused[i].item.trigger))
    && (forall p :: 0 <= p < |e.slots| && e.slots[p].Some? ==> NoneForRegistrar(e.slots[p].value.routed))
    && (forall i :: 0 <= i < |e.ended| ==> NoneForRegistrar(e.ended[i].routed))
  }

  lemma RouteSorts(e: Engine, src: Source, info: CallInfo, told: bool)
    requires Sorted(e) && FrontOf(e, src).router.Holding?
    ensures Sorted(Route(e, src, info, told))
  {
    RouteIs(e, src, info, told);
    var item := FrontOf(e, src).router.item;
    var t := item.trigger;
    if IsCreating(t) {
      CreateSorts(e, src, item, info, told);
    } else if ForRegistrar(t) {
    } else if t.SipReceive? {
      DeliverSorts(e, src, item, 0, t.sip.callId, told);
    } else if t.GuiEndCall? || t.GuiAcceptCall? {
      DeliverSorts(e, src, item, t.callId, 0, told);
    }
  }

  lemma CreateSorts(e: Engine, src: Source, item: Item, info: CallInfo, told: bool)
    requires Sorted(e) && !ForRegistrar(item.trigger) && IsCreating(item.trigger)
    ensures Sorted(Create(e, src, item, info, told))
  {
  }

  lemma DeliverSorts(e: Engine, src: Source, item: Item, callId: int, sipCallId: int, told: bool)
    requires Sorted(e) && !ForRegistrar(item.trigger)
    ensures Sorted(Deliver(e, src, item, callId, sipCallId, told))
  {
    forall p: nat | InUse(e, p) ensures Sorted(Enqueue(e, src, item, p, told)) {
      EnqueueSorts(e, src, item, p, told);
    }
    ColumnsUsed(e.slots);
  }

  lemma ColumnsUsed(slots: seq<Option<Slot>>)
    ensures forall p :: 0 <= p < |slots| && CallIdsOf(slots)[p].Some? ==> slots[p].Some?
    ensures forall p :: 0 <= p < |slots| && SipCallIdsOf(slots)[p].Some? ==> slots[p].Some?
  {
  }

  lemma EnqueueSorts(e: Engine, src: Source, item: Item, p: nat, told: bool)
    requires Sorted(e) && !ForRegistrar(item.trigger) && InUse(e, p)
    ensures Sorted(Enqueue(e, src, item, p, told))
  {
  }

  lemma PlaceSorts(e: Engine, src: Source)
    requires Sorted(e) && Enabled(e, DoPlace(src)) && PlacingOk(e.slots, FrontOf(e, src).router)
    ensures Sorted(Place(e, src))
  {
  }

  lemma HandleSorts(e: Engine, p: nat, a: Answers)
    requires Sorted(e) && CanHandle(e, p, a)
    ensures Sorted(HandleStep(e, p, a))
  {
    var s := e.slots[p].value;
    var b := a.(newCallId := NextCallId(e));
    HandlePuts(s, b, |s.pool| < e.maxEvents, |e.ids.drawnFor| + 1);
  }

  lemma HandlePuts(s: Slot, a: Answers, room: bool, draw: nat)
    requires s.phase.Handling? && NoneForRegistrar(s.routed)
    ensures NoneForRegistrar(Handle(s, a, room, draw).routed)
  {
    PostedKind(s.machine, s.phase.item.trigger, a, room);
  }

  lemma PostedKind(m: Machine, t: Trigger, a: Answers, room: bool)
    ensures var o := Step(m, t, a, room); o.posted.Some? ==> !ForRegistrar(o.posted.value)
  {
  }

  lemma StepSorts(e: Engine, a: Action)
    requires EngineInv(e) && Sorted(e) && Enabled(e, a)
    ensures Sorted(Fire(e, a))
  {
    match a
    case DoAccept(t) => ArrivalsSort(e, a);
    case DoTake(src) => ArrivalsSort(e, a);
    case DoRoute(src, info, told) =>
      RouteSorts(e, src, info, told);
      assert Fire(e, a) == Route(e, src, info, told);
    case DoPlace(src) => PlacedSorts(e, src);
    case DoHandle(p, answers) =>
      HandleSorts(e, p, answers);
      assert Fire(e, a) == HandleStep(e, p, answers);
    case _ => OthersSort(e, a);
  }

  lemma ArrivalsSort(e: Engine, a: Action)
    requires Sorted(e) && Enabled(e, a) && (a.DoAccept? || a.DoTake?)
    ensures Sorted(Fire(e, a))
  {
  }

  lemma PlacedSorts(e: Engine, src: Source)
    requires EngineInv(e) && Sorted(e) && Enabled(e, DoPlace(src))
    ensures Sorted(Fire(e, DoPlace(src)))
  {
    PlaceSorts(e, src);
    assert Fire(e, DoPlace(src)) == Place(e, src);
  }

  lemma OthersSort(e: Engine, a: Action)
    requires Sorted(e) && Enabled(e, a)
    requires !(a.DoAccept? || a.DoTake? || a.DoRoute? || a.DoPlace? || a.DoHandle?)
    ensures Sorted(Fire(e, a))
  {
  }

  lemma {:induction false} RunSorts(maxCalls: nat, maxEvents: nat, actions: seq<Action>)
    requires maxEvents >= 2
    ensures Sorted(Execute(Boot(maxCalls, maxEvents), actions))
    decreases |actions|
  {
    if actions != [] {
      var before, a := actions[..|actions| - 1], actions[|actions| - 1];
      RunSorts(maxCalls, maxEvents, before);
      ExecuteKeeps(maxCalls, maxEvents, before);
      var e := Execute(Boot(maxCalls, maxEvents), before);
      if Enabled(e, a) { StepSorts(e, a); }
    }
  }

  lemma {:induction false} OutMember(items: seq<Item>, x: Item)
    requires x in OutItems(items)
    ensures exists i :: 0 <= i < |items| && items[i] == x
    decreases |items|
  {
    if x !in OutItems(items[..|items| - 1]) {
      assert items[|items| - 1] == x;
    } else {
      OutMember(items[..|items| - 1], x);
      var i :| 0 <= i < |items| - 1 && items[..|items| - 1][i] == x;
      assert items[i] == x;
    }
  }

  lemma {:induction false} LiveMember(slots: seq<Option<Slot>>, x: Item)
    requires x in LiveItems(slots)
    ensures exists p, i :: 0 <= p < |slots| && slots[p].Some? && 0 <= i < |slots[p].value.routed| &&
                           slots[p].value.routed[i] == x
    decreases |slots|
  {
    var n := |slots| - 1;
    if x in LiveItems(slots[..n]) {
      LiveMember(slots[..n], x);
      var p, i :| 0 <= p < n && slots[..n][p].Some? && 0 <= i < |slots[..n][p].value.routed| &&
                  slots[..n][p].value.routed[i] == x;
      assert slots[p].Some? && slots[p].value.routed[i] == x;
    } else {
      OutMember(slots[n].value.routed, x);
      var i :| 0 <= i < |slots[n].value.routed| && slots[n].value.routed[i] == x;
      assert slots[n].Some? && slots[n].value.routed[i] == x;
    }
  }

  lemma {:induction false} EndedMember(ended: seq<Slot>, x: Item)
    requires x in EndedItems(ended)
    ensures exists p, i :: 0 <= p < |ended| && 0 <= i < |ended[p].routed| && ended[p].routed[i] == x
    decreases |ended|
  {
    var n := |ended| - 1;
    if x in EndedItems(ended[..n]) {
      EndedMember(ended[..n], x);
      var p, i :| 0 <= p < n && 0 <= i < |ended[..n][p].routed| && ended[..n][p].routed[i] == x;
      assert ended[p].routed[i] == x;
    } else {
      OutMember(ended[n].routed, x);
      var i :| 0 <= i < |ended[n].routed| && ended[n].routed[i] == x;
      assert ended[n].routed[i] == x;
    }
  }

  /**
   On every run the registrar has exactly the messages dealt with that are one of the five registration events:
   none of them is refused or given to a machine, and it gets nothing else.
   */
  lemma RegistrarGetsItsEvents(maxCalls: nat, maxEvents: nat, actions: seq<Action>, k: nat)
    requires maxEvents >= 2
    requires var e := Execute(Boot(maxCalls, maxEvents), actions);
             k < |e.accepted| && e.accepted[k] !in Arriving(e.gui, e.sip)
    ensures var e := Execute(Boot(maxCalls, maxEvents), actions);
            var t := e.accepted[k].trigger;
            e.accepted[k] in e.registrar <==>
              && t.SipReceive?
              && t.sip.kind in {RegistrationNew, RegistrationSuccess, RegistrationFailure, RegistrationRefreshed,
                                RegistrationTerminated}
  {
    var e := Execute(Boot(maxCalls, maxEvents), actions);
    ExactlyOnce(maxCalls, maxEvents, actions, k);
    RunSorts(maxCalls, maxEvents, actions);
    SortedOut(e, e.accepted[k]);
  }

  /** Where an item is, by its kind. */
  lemma SortedOut(e: Engine, x: Item)
    requires Sorted(e) && Routed(e.slots, e.ended)[x] + Diverted(e.registrar, e.refused)[x] >= 1
    ensures x in e.registrar <==> ForRegistrar(x.trigger)
  {
    if x in Routed(e.slots, e.ended) { RoutedKind(e, x); }
    if x in multiset(RefusedItems(e.refused)) {
      var i :| 0 <= i < |RefusedItems(e.refused)| && RefusedItems(e.refused)[i] == x;
      assert !ForRegistrar(e.refused[i].item.trigger);
    }
  }

  lemma RoutedKind(e: Engine, x: Item)
    requires Sorted(e) && x in Routed(e.slots, e.ended)
    ensures !ForRegistrar(x.trigger)
  {
    if x in LiveItems(e.slots) {
      LiveMember(e.slots, x);
    } else {
      EndedMember(e.ended, x);
    }
  }

  // ---------------------------------------------------------------- a machine asked to stop

  /** How many events a slot that is asked to stop can have handled in the end. */
  function AtMost(s: Slot): nat {
    |s.consumed| + match s.phase
                   case Asleep => 0
                   case Leaving => 0
                   case _ => 1
  }

  /** Asked to stop, and bound to end before it has handled more than n events. */
  predicate Stopping(s: Slot, n: nat) {
    s.doShutdown && AtMost(s) <= n
  }

  lemma StepStops(e: Engine, a: Action, p: nat, n: nat)
    requires Enabled(e, a) && InUse(e, p) && Stopping(e.slots[p].value, n)
    requires PlacingOk(e.slots, e.gui.router) && PlacingOk(e.slots, e.sip.router)
    requires InUse(Fire(e, a), p) && Fire(e, a).slots[p].value.creator == e.slots[p].value.creator
    ensures Stopping(Fire(e, a).slots[p].value, n)
  {
    match a
    case DoAccept(t) => assert Fire(e, a) == Accept(e, t) && Accept(e, t).slots == e.slots;
    case DoTake(src) => assert Fire(e, a) == Take(e, src) && Take(e, src).slots == e.slots;
    case DoRoute(src, info, told) =>
      RouteStops(e, src, info, told, p, n);
      assert Fire(e, a) == Route(e, src, info, told);
    case DoPlace(src) => assert Fire(e, a) == Place(e, src);
    case DoHandle(q, answers) =>
      HandleStops(e, q, answers, p, n);
      assert Fire(e, a) == HandleStep(e, q, answers);
    case _ => OthersStop(e, a, p, n);
  }

  lemma RouteStops(e: Engine, src: Source, info: CallInfo, told: bool, p: nat, n: nat)
    requires FrontOf(e, src).router.Holding? && InUse(e, p) && Stopping(e.slots[p].value, n)
    ensures InUse(Route(e, src, info, told), p) && Stopping(Route(e, src, info, told).slots[p].value, n)
  {
    RouteIs(e, src, info, told);
    ColumnsUsed(e.slots);
  }

  lemma HandleStops(e: Engine, q: nat, a: Answers, p: nat, n: nat)
    requires CanHandle(e, q, a) && InUse(e, p) && Stopping(e.slots[p].value, n)
    ensures InUse(HandleStep(e, q, a), p) && Stopping(HandleStep(e, q, a).slots[p].value, n)
  {
  }

  lemma OthersStop(e: Engine, a: Action, p: nat, n: nat)
    requires Enabled(e, a) && InUse(e, p) && Stopping(e.slots[p].value, n) && InUse(Fire(e, a), p)
    requires !(a.DoAccept? || a.DoTake? || a.DoRoute? || a.DoPlace? || a.DoHandle?)
    ensures Stopping(Fire(e, a).slots[p].value, n)
  {
  }

  lemma {:induction false} StoppingOnRun(e: Engine, actions: seq<Action>, p: nat, creator: Item, n: nat)
    requires EngineInv(e) && Stays(e, actions, p, creator) && InUse(e, p) && Stopping(e.slots[p].value, n)
    ensures var f := Execute(e, actions); EngineInv(f) && InUse(f, p) && Stopping(f.slots[p].value, n)
    decreases |actions|
  {
    if actions != [] {
      StaysBefore(e, actions, p, creator);
      StoppingOnRun(e, actions[..|actions| - 1], p, creator, n);
      StopsNext(e, actions, p, creator, n);
    }
  }

  lemma StopsNext(e: Engine, actions: seq<Action>, p: nat, creator: Item, n: nat)
    requires actions != [] && Stays(e, actions, p, creator)
    requires var f := Execute(e, actions[..|actions| - 1]); EngineInv(f) && InUse(f, p) && Stopping(f.slots[p].value, n)
    ensures var f := Execute(e, actions); EngineInv(f) && InUse(f, p) && Stopping(f.slots[p].value, n)
  {
    var k := |actions| - 1;
    var f, a := Execute(e, actions[..k]), actions[k];
    assert actions[..k + 1] == actions;
    assert InUse(Execute(e, actions[..k]), p) && InUse(Execute(e, actions[..k + 1]), p);
    if Enabled(f, a) {
      StepKeepsEngine(f, a);
      StepStops(f, a, p, n);
    }
  }

  /** A machine that is asked to stop handles at most one more event, whatever happens. */
  lemma StopsAfterOneEvent(e: Engine, actions: seq<Action>, p: nat, creator: Item)
    requires EngineInv(e) && Stays(e, actions, p, creator) && InUse(e, p) && e.slots[p].value.doShutdown
    ensures var f := Execute(e, actions);
            InUse(f, p) && |f.slots[p].value.consumed| <= |e.slots[p].value.consumed| + 1
  {
    StoppingOnRun(e, actions, p, creator, |e.slots[p].value.consumed| + 1);
  }

  /** And that is what shutting down asks of every machine there is. */
  lemma ShutdownAsksAll(e: Engine, p: nat)
    requires Enabled(e, DoShutdownAll) && p < |e.slots|
    ensures var f := Fire(e, DoShutdownAll);
            && p < |f.slots| && (f.slots[p].Some? <==> e.slots[p].Some?)
            && (e.slots[p].Some? ==> f.slots[p].value == e.slots[p].value.(doShutdown := true))
  {
  }

  // ---------------------------------------------------------------- what queuesLock guards

  /** Looking up a call, taking a slot, sending an INVITE and shutting down all need the lock to be free. */
  lemma LockIsNeeded(e: Engine, a: Action)
    requires Enabled(e, a)
    ensures a.DoRoute? ==>
              var t := FrontOf(e, a.src).router.item.trigger;
              (|| t.GuiMakeCall? || ((t.GuiEndCall? || t.GuiAcceptCall?) && t.callId > 0)
               || (t.SipReceive? && t.sip.kind == CallInvite)
               || (t.SipReceive? && !ForRegistrar(t) && t.sip.callId > 0)) ==> e.lock == Free
    ensures a.DoBeginInvite? || a.DoShutdownAll? ==> e.lock == Free
    ensures a.DoHandle? ==>
              var s, s' := e.slots[a.pos].value, Fire(e, a).slots[a.pos];
              s'.Some? && (s'.value.callId != s.callId || |s'.value.routed| > |s.routed| ==> e.lock == Free)
  {
    if a.DoHandle? { HandlingNeedsLock(e, a.pos, a.answers); }
  }

  lemma HandlingNeedsLock(e: Engine, p: nat, a: Answers)
    requires CanHandle(e, p, a)
    ensures var s, f := e.slots[p].value, HandleStep(e, p, a);
            && InUse(f, p)
            && (f.slots[p].value.callId != s.callId || |f.slots[p].value.routed| > |s.routed| ==> e.lock == Free)
  {
    var s := e.slots[p].value;
    var b := a.(newCallId := NextCallId(e));
    PostsForCall(s.machine, s.phase.item.trigger, b, |s.pool| < e.maxEvents);
  }

  lemma PostsForCall(m: Machine, t: Trigger, a: Answers, room: bool)
    ensures Step(m, t, a, room).posted.Some? ==> m.state == Initial && t.GuiMakeCall? && t.callee.Some?
  {
  }

  // ---------------------------------------------------------------- every call is a run of the machine

  ghost predicate IsARun(m: Machine) {
    exists start, inputs :: Fresh(start) && m == Run(start, inputs)
  }

  ghost predicate CallsAreRuns(e: Engine) {
    && (forall p :: 0 <= p < |e.slots| && e.slots[p].Some? ==> IsARun(e.slots[p].value.machine))
    && (forall i :: 0 <= i < |e.ended| ==> IsARun(e.ended[i].machine))
  }

  lemma FreshIsARun(m: Machine)
    requires Fresh(m)
    ensures IsARun(m)
  {
    assert m == Run(m, []);
  }

  lemma StepIsARun(m: Machine, t: Trigger, a: Answers, room: bool)
    requires IsARun(m)
    ensures IsARun(Step(m, t, a, room).m)
  {
    var start, inputs :| Fresh(start) && m == Run(start, inputs);
    var x := Input(t, a, room);
    assert (inputs + [x])[..|inputs|] == inputs;
    assert Step(m, t, a, room).m == Run(start, inputs + [x]);
  }

  /** The machine of a slot after a step of the slot itself. */
  lemma SlotStepIsARun(e: Engine, a: Action)
    requires CallsAreRuns(e) && Enabled(e, a) && (a.DoHandle? || a.DoTerminate? || a.DoFinishInvite?)
    ensures CallsAreRuns(Fire(e, a))
  {
    var s := e.slots[a.pos].value;
    match a
    case DoHandle(p, answers) =>
      StepIsARun(s.machine, s.phase.item.trigger, answers.(newCallId := NextCallId(e)), |s.pool| < e.maxEvents);
      assert Fire(e, a) == HandleStep(e, p, answers);
    case DoTerminate(p, answers) => StepIsARun(s.machine, InvalidEvent, answers, false);
    case DoFinishInvite(p, answers) =>
      var b := answers.(accountFound := true, inviteResult := s.phase.result);
      StepIsARun(s.machine, s.phase.item.trigger, b, false);
  }

  lemma RouteIsARun(e: Engine, src: Source, info: CallInfo, told: bool)
    requires CallsAreRuns(e) && CanRoute(e, src, info)
    ensures CallsAreRuns(Route(e, src, info, told))
  {
    RouteIs(e, src, info, told);
    var item := FrontOf(e, src).router.item;
    if IsCreating(item.trigger) {
      CreateIsARun(e, src, item, info, told);
    } else if item.trigger.SipReceive? && !IsRegistration(item.trigger.sip.kind) {
      DeliverIsARun(e, src, item, 0, item.trigger.sip.callId, told);
    } else if item.trigger.GuiEndCall? || item.trigger.GuiAcceptCall? {
      DeliverIsARun(e, src, item, item.trigger.callId, 0, told);
    }
  }

  lemma CreateIsARun(e: Engine, src: Source, item: Item, info: CallInfo, told: bool)
    requires CallsAreRuns(e) && Fresh(Machine(Initial, info, false, [], [Initial]))
    ensures CallsAreRuns(Create(e, src, item, info, told))
  {
    FreshIsARun(Machine(Initial, info, false, [], [Initial]));
  }

  lemma DeliverIsARun(e: Engine, src: Source, item: Item, callId: int, sipCallId: int, told: bool)
    requires CallsAreRuns(e)
    ensures CallsAreRuns(Deliver(e, src, item, callId, sipCallId, told))
  {
    ColumnsUsed(e.slots);
    forall p: nat | InUse(e, p) ensures CallsAreRuns(Enqueue(e, src, item, p, told)) {
      EnqueueIsARun(e, src, item, p, told);
    }
  }

  lemma EnqueueIsARun(e: Engine, src: Source, item: Item, p: nat, told: bool)
    requires CallsAreRuns(e) && InUse(e, p)
    ensures CallsAreRuns(Enqueue(e, src, item, p, told))
  {
  }

  lemma OthersAreRuns(e: Engine, a: Action)
    requires CallsAreRuns(e) && Enabled(e, a)
    requires !(a.DoHandle? || a.DoTerminate? || a.DoFinishInvite? || a.DoRoute?)
    ensures CallsAreRuns(Fire(e, a))
  {
  }

  /** So all that holds of the runs of a machine holds of every call of the engine, alive or over. */
  lemma {:induction false} EveryCallIsARun(maxCalls: nat, maxEvents: nat, actions: seq<Action>)
    ensures CallsAreRuns(Execute(Boot(maxCalls, maxEvents), actions))
    decreases |actions|
  {
    if actions != [] {
      var before, a := actions[..|actions| - 1], actions[|actions| - 1];
      EveryCallIsARun(maxCalls, maxEvents, before);
      var e := Execute(Boot(maxCalls, maxEvents), before);
      if Enabled(e, a) { StepStaysARun(e, a); }
    }
  }

  lemma StepStaysARun(e: Engine, a: Action)
    requires CallsAreRuns(e) && Enabled(e, a)
    ensures CallsAreRuns(Fire(e, a))
  {
    if a.DoRoute? {
      RouteIsARun(e, a.src, a.info, a.told);
      assert Fire(e, a) == Route(e, a.src, a.info, a.told);
    } else if a.DoHandle? || a.DoTerminate? || a.DoFinishInvite? {
      SlotStepIsARun(e, a);
    } else {
      OthersAreRuns(e, a);
    }
  }
}
