/** What every interleaving of the call engine guarantees. */
module EngineTheorems {
  import opened Options
  import opened Events
  import opened CallIds
  import opened Transactions
  import opened CallMachine
  import opened CallSafety
  import opened CallRuns
  import opened CallSlots
  import opened SlotSearch
  import opened CallEngine
  import opened EngineInvariant
  import opened EngineRouting

  // ---------------------------------------------------------------- conservation and FIFO

  /** Every accepted message is in exactly one place, exactly once, after any run. */
  lemma ExactlyOnce(maxCalls: nat, maxEvents: nat, actions: seq<Action>, k: nat)
    requires maxEvents >= 2
    requires k < |Execute(Boot(maxCalls, maxEvents), actions).accepted|
    ensures var e := Execute(Boot(maxCalls, maxEvents), actions);
            var item := e.accepted[k];
            && Everywhere(e)[item] == 1
            && Arriving(e.gui, e.sip)[item] + Routed(e.slots, e.ended)[item] + Diverted(e.registrar, e.refused)[item]
               == 1
  {
    ExecuteKeeps(maxCalls, maxEvents, actions);
    var e := Execute(Boot(maxCalls, maxEvents), actions);
    CountOne(e.accepted, k);
  }

  lemma {:induction false} CountOne(items: seq<Item>, k: nat)
    requires k < |items| && forall i :: 0 <= i < |items| ==> items[i].Outside? && items[i].uid == i
    ensures multiset(items)[items[k]] == 1
    decreases |items|
  {
    var n := |items| - 1;
    assert items == items[..n] + [items[n]];
    if k < n {
      CountOne(items[..n], k);
    } else {
      assert items[k] !in items[..n];
    }
  }

  lemma {:induction false} SlotCount(slots: seq<Option<Slot>>, p: nat, item: Item)
    requires p < |slots|
    ensures LiveItems(slots)[item] >= ItemsOf(slots[p])[item]
    decreases |slots|
  {
    var n := |slots| - 1;
    if p < n {
      SlotCount(slots[..n], p, item);
    }
  }

  lemma {:induction false} TwoSlotsCount(slots: seq<Option<Slot>>, p: nat, q: nat, item: Item)
    requires p < q < |slots|
    ensures LiveItems(slots)[item] >= ItemsOf(slots[p])[item] + ItemsOf(slots[q])[item]
    decreases |slots|
  {
    var n := |slots| - 1;
    assert slots[..n][p] == slots[p];
    if q < n {
      assert slots[..n][q] == slots[q];
      TwoSlotsCount(slots[..n], p, q, item);
    } else {
      SlotCount(slots[..n], p, item);
    }
    LastSlotCount(slots, item);
  }

  lemma LastSlotCount(slots: seq<Option<Slot>>, item: Item)
    requires slots != []
    ensures var n := |slots| - 1;
            LiveItems(slots)[item] == LiveItems(slots[..n])[item] + ItemsOf(slots[n])[item]
  {
  }

  lemma {:induction false} RoutedCount(items: seq<Item>, i: nat)
    requires i < |items| && items[i].Outside?
    ensures OutItems(items)[items[i]] >= 1
    decreases |items|
  {
    if i < |items| - 1 {
      assert items[..|items| - 1][i] == items[i];
      RoutedCount(items[..|items| - 1], i);
    }
  }

  /** Pools and slots are within their limits, and each machine has handled what was routed to it in that order. */
  ghost predicate FifoInBounds(e: Engine, maxCalls: nat, maxEvents: nat) {
    && |e.gui.pool| <= EVT_DP_QUEUE_SIZE && |e.sip.pool| <= EVT_DP_QUEUE_SIZE && |e.slots| == maxCalls
    && (forall p :: 0 <= p < |e.slots| && e.slots[p].Some? ==>
          var s := e.slots[p].value;
          && |s.pool| <= maxEvents
          && s.consumed + InHand(s.phase) + s.pool == s.routed
          && Seen(s.machine.trace) == Triggers(s.consumed)
          && InOrder(|e.accepted|, |e.accepted|, s.routed))
    && (forall i :: 0 <= i < |e.ended| ==> e.ended[i].consumed + e.ended[i].pool == e.ended[i].routed)
  }

  lemma FifoWithinBounds(maxCalls: nat, maxEvents: nat, actions: seq<Action>)
    requires maxEvents >= 2
    ensures FifoInBounds(Execute(Boot(maxCalls, maxEvents), actions), maxCalls, maxEvents)
  {
    ExecuteKeeps(maxCalls, maxEvents, actions);
    SizesKept(maxCalls, maxEvents, actions);
    FifoKept(Execute(Boot(maxCalls, maxEvents), actions));
  }

  lemma FifoKept(e: Engine)
    requires EngineInv(e)
    ensures FifoInBounds(e, |e.slots|, e.maxEvents)
  {
    forall p | 0 <= p < |e.slots| && e.slots[p].Some?
      ensures var s := e.slots[p].value;
              && |s.pool| <= e.maxEvents && s.consumed + InHand(s.phase) + s.pool == s.routed
              && Seen(s.machine.trace) == Triggers(s.consumed) && InOrder(|e.accepted|, |e.accepted|, s.routed)
    {
      SlotFifo(e, p);
    }
    forall i | 0 <= i < |e.ended|
      ensures e.ended[i].consumed + e.ended[i].pool == e.ended[i].routed
    {
      var s := e.ended[i];
      assert s.consumed + [] == s.consumed;
    }
  }

  lemma SlotFifo(e: Engine, p: nat)
    requires SlotsOk(e) && FrontsOk(e) && InUse(e, p)
    ensures var s := e.slots[p].value;
            && |s.pool| <= e.maxEvents && s.consumed + InHand(s.phase) + s.pool == s.routed
            && Seen(s.machine.trace) == Triggers(s.consumed) && InOrder(|e.accepted|, |e.accepted|, s.routed)
  {
    assert SlotOk(e.slots[p].value, e.maxEvents, e.ids, e.gui.bound, e.sip.bound, e.accepted);
  }

  lemma SizesKeptByStep(e: Engine, a: Action)
    requires Enabled(e, a)
    ensures |Fire(e, a).slots| == |e.slots| && Fire(e, a).maxEvents == e.maxEvents
  {
    match a
    case DoRoute(src, info, told) => SizesKeptByRoute(e, src, info, told);
    case DoHandle(p, answers) => SizesKeptByHandle(e, p, answers);
    case _ =>
  }

  lemma SizesKeptByRoute(e: Engine, src: Source, info: CallInfo, told: bool)
    requires CanRoute(e, src, info)
    ensures |Route(e, src, info, told).slots| == |e.slots| && Route(e, src, info, told).maxEvents == e.maxEvents
  {
    RouteIs(e, src, info, told);
  }

  lemma SizesKeptByHandle(e: Engine, p: nat, a: Answers)
    requires CanHandle(e, p, a)
    ensures |HandleStep(e, p, a).slots| == |e.slots| && HandleStep(e, p, a).maxEvents == e.maxEvents
  {
  }

  lemma {:induction false} SizesKept(maxCalls: nat, maxEvents: nat, actions: seq<Action>)
    ensures var e := Execute(Boot(maxCalls, maxEvents), actions); |e.slots| == maxCalls && e.maxEvents == maxEvents
    decreases |actions|
  {
    if actions != [] {
      var before, a := actions[..|actions| - 1], actions[|actions| - 1];
      SizesKept(maxCalls, maxEvents, before);
      var e := Execute(Boot(maxCalls, maxEvents), before);
      if Enabled(e, a) {
        SizesKeptByStep(e, a);
      }
    }
  }

  // ---------------------------------------------------------------- owners of IDs

  /** No two live slots were created by the same message. */
  lemma CreatorsDistinct(e: Engine, p: nat, q: nat)
    requires EngineInv(e) && InUse(e, p) && InUse(e, q) && p != q
    ensures UidOf(e.slots[p].value.creator) != UidOf(e.slots[q].value.creator)
  {
    LiveSlotOk(e, p);
    LiveSlotOk(e, q);
    var s, t := e.slots[p].value, e.slots[q].value;
    if s.creator == t.creator {
      var k := UidOf(s.creator);
      CountOne(e.accepted, k);
      assert SlotLinked(s, p, e.lock, e.gui.router, e.sip.router);
      assert SlotLinked(t, q, e.lock, e.gui.router, e.sip.router);
      if s.phase != Created && t.phase != Created {
        TwoSlots(e, p, q);
      } else if s.phase != Created {
        SlotAndHand(e, p, q);
      } else if t.phase != Created {
        SlotAndHand(e, q, p);
      }
    }
  }

  lemma TwoSlots(e: Engine, p: nat, q: nat)
    requires Conserved(e) && InUse(e, p) && InUse(e, q) && p != q
    requires Born(e.slots[p].value) && Born(e.slots[q].value)
    requires e.slots[p].value.phase != Created && e.slots[q].value.phase != Created
    requires e.slots[p].value.creator == e.slots[q].value.creator
    ensures multiset(e.accepted)[e.slots[p].value.creator] >= 2
  {
    var x := e.slots[p].value.creator;
    RoutedCount(e.slots[p].value.routed, 0);
    RoutedCount(e.slots[q].value.routed, 0);
    if p < q {
      TwoSlotsCount(e.slots, p, q, x);
    } else {
      TwoSlotsCount(e.slots, q, p, x);
    }
    assert Everywhere(e)[x] >= LiveItems(e.slots)[x];
  }

  lemma SlotAndHand(e: Engine, p: nat, q: nat)
    requires Conserved(e) && InUse(e, p) && InUse(e, q)
    requires Born(e.slots[p].value) && e.slots[p].value.phase != Created && e.slots[q].value.phase == Created
    requires SlotLinked(e.slots[q].value, q, e.lock, e.gui.router, e.sip.router)
    requires e.slots[p].value.creator == e.slots[q].value.creator
    ensures multiset(e.accepted)[e.slots[p].value.creator] >= 2
  {
    var x := e.slots[p].value.creator;
    RoutedCount(e.slots[p].value.routed, 0);
    SlotCount(e.slots, p, x);
    assert Arriving(e.gui, e.sip)[x] >= 1;
    assert Everywhere(e)[x] >= Arriving(e.gui, e.sip)[x] + LiveItems(e.slots)[x];
  }

  /** Two calls drew different numbers, and share a call ID exactly when those are a multiple of INT_MAX apart. */
  ghost predicate CollideByWrapping(s: Slot, t: Slot) {
    && 0 < s.callDraw && 0 < t.callDraw && s.callDraw != t.callDraw
    && (s.callId == t.callId <==> (s.callDraw - t.callDraw) % INT_MAX == 0)
  }

  lemma DrawsDistinct(ids: Ids, s: Slot, t: Slot)
    requires IdsTraced(ids, s) && IdsTraced(ids, t) && UidOf(s.creator) != UidOf(t.creator)
    requires s.callId > 0 && t.callId > 0
    ensures CollideByWrapping(s, t)
  {
    SameIdIff(s.callDraw, t.callDraw);
  }

  lemma LiveCallIds(e: Engine, p: nat, q: nat)
    requires EngineInv(e) && InUse(e, p) && InUse(e, q) && p != q
    ensures IdsTraced(e.ids, e.slots[p].value) && IdsTraced(e.ids, e.slots[q].value)
    ensures UidOf(e.slots[p].value.creator) != UidOf(e.slots[q].value.creator)
  {
    LiveSlotOk(e, p);
    LiveSlotOk(e, q);
    CreatorsDistinct(e, p, q);
  }

  /** Live calls only share a call ID after the generator wrapped around in between. */
  lemma CallIdsCollideIff(e: Engine, p: nat, q: nat)
    requires EngineInv(e) && InUse(e, p) && InUse(e, q) && p != q
    requires e.slots[p].value.callId > 0 && e.slots[q].value.callId > 0
    ensures CollideByWrapping(e.slots[p].value, e.slots[q].value)
  {
    LiveCallIds(e, p, q);
    DrawsDistinct(e.ids, e.slots[p].value, e.slots[q].value);
  }

  /** Fewer than INT_MAX IDs have been drawn since that of any live call. */
  predicate Young(e: Engine) {
    forall p :: 0 <= p < |e.slots| && e.slots[p].Some? && e.slots[p].value.callDraw > 0 ==>
      |e.ids.drawnFor| - e.slots[p].value.callDraw < INT_MAX
  }

  lemma YoungIdsDistinct(e: Engine, p: nat, q: nat)
    requires EngineInv(e) && Young(e) && InUse(e, p) && InUse(e, q) && p != q
    requires e.slots[p].value.callId > 0
    ensures e.slots[p].value.callId != e.slots[q].value.callId
  {
    LiveSlotOk(e, p);
    LiveSlotOk(e, q);
    CreatorsDistinct(e, p, q);
    YoungDraws(e.ids, e.slots[p].value, e.slots[q].value);
  }

  lemma YoungDraws(ids: Ids, s: Slot, t: Slot)
    requires IdsTraced(ids, s) && IdsTraced(ids, t) && UidOf(s.creator) != UidOf(t.creator)
    requires s.callDraw > 0 ==> |ids.drawnFor| - s.callDraw < INT_MAX
    requires t.callDraw > 0 ==> |ids.drawnFor| - t.callDraw < INT_MAX
    requires s.callId > 0
    ensures s.callId != t.callId
  {
    var i, j := s.callDraw, t.callDraw;
    if 0 < i < j {
      WindowIsDistinct(i, j);
    } else if 0 < j < i {
      WindowIsDistinct(j, i);
    }
  }

  predicate Owns(e: Engine, p: int, callId: int) {
    InUse(e, p) && e.slots[p].value.callId == callId
  }

  /** What routing this event to the one owner of its call ID, or to nobody, makes of the slots. */
  ghost predicate ReachesOwner(e: Engine, e': Engine, item: Item, callId: int, told: bool) {
    if callId > 0 && exists p :: Owns(e, p, callId) then
      exists p :: Owns(e, p, callId)
        && (forall q :: Owns(e, q, callId) ==> q == p)
        && e'.slots == e.slots[p := Some(Offered(e.slots[p].value, item, e.maxEvents))]
    else
      && e'.slots == e.slots
      && e'.refused == e.refused + [Refusal(item, if callId > 0 then [UserEvent(0, told)] else [])]
  }

  /** The slot after an event was offered to its pool. */
  function Offered(s: Slot, item: Item, maxEvents: nat): Slot {
    if |s.pool| < maxEvents then Put(s, item) else s
  }

  lemma DeliverOutcome(e: Engine, item: Item, callId: int, told: bool)
    ensures var e' := Deliver(e, Gui, item, callId, 0, told);
            var p := FirstWith(CallIdsOf(e.slots), callId);
            if callId > 0 && p != -1
            then Owns(e, p, callId) && e'.slots == e.slots[p := Some(Offered(e.slots[p].value, item, e.maxEvents))]
            else
              && e'.slots == e.slots
              && e'.refused == e.refused + [Refusal(item, if callId > 0 then [UserEvent(0, told)] else [])]
    ensures forall q :: Owns(e, q, callId) ==> FirstWith(CallIdsOf(e.slots), callId) != -1
  {
    var ids := CallIdsOf(e.slots);
    var p := FirstWith(ids, callId);
    forall q | Owns(e, q, callId)
      ensures p != -1
    {
      assert ids[q] == Some(callId);
    }
    if callId > 0 && p != -1 {
      assert e.slots[p := Some(e.slots[p].value)] == e.slots;
    }
  }

  /** A GUI end or accept event reaches the one machine that owns its call ID, or none if no machine does. */
  lemma GuiEventReachesOwner(maxCalls: nat, maxEvents: nat, actions: seq<Action>, info: CallInfo, told: bool)
    requires maxEvents >= 2
    requires var e := Execute(Boot(maxCalls, maxEvents), actions);
             && Young(e) && Enabled(e, DoRoute(Gui, info, told))
             && (e.gui.router.item.trigger.GuiEndCall? || e.gui.router.item.trigger.GuiAcceptCall?)
    ensures var e := Execute(Boot(maxCalls, maxEvents), actions);
            var item := e.gui.router.item;
            ReachesOwner(e, Fire(e, DoRoute(Gui, info, told)), item, item.trigger.callId, told)
  {
    ExecuteKeeps(maxCalls, maxEvents, actions);
    var e := Execute(Boot(maxCalls, maxEvents), actions);
    var item := e.gui.router.item;
    RouteIs(e, Gui, info, told);
    DeliverReaches(e, item, item.trigger.callId, told);
  }

  lemma DeliverReaches(e: Engine, item: Item, callId: int, told: bool)
    requires EngineInv(e) && Young(e)
    ensures ReachesOwner(e, Deliver(e, Gui, item, callId, 0, told), item, callId, told)
  {
    DeliverOutcome(e, item, callId, told);
    var p := FirstWith(CallIdsOf(e.slots), callId);
    if callId > 0 && p != -1 {
      OnlyOwner(e, p, callId);
    }
  }

  lemma OnlyOwner(e: Engine, p: int, callId: int)
    requires EngineInv(e) && Young(e) && Owns(e, p, callId) && callId > 0
    ensures forall q :: Owns(e, q, callId) ==> q == p
  {
    forall q | Owns(e, q, callId)
      ensures q == p
    {
      if q != p {
        YoungIdsDistinct(e, p, q);
      }
    }
  }

  // ---------------------------------------------------------------- no early answer is missed

  /** The SIP stack never gives out the same positive call ID twice. */
  ghost predicate StackIdsDistinct(e: Engine) {
    forall i, j :: 0 <= i < j < |e.ids.stackIds| && e.ids.stackIds[i] > 0 ==> e.ids.stackIds[i] != e.ids.stackIds[j]
  }

  /** Slot p is still the one created by this message, in every state of the run. */
  ghost predicate Stays(e: Engine, actions: seq<Action>, p: nat, creator: Item) {
    forall n :: 0 <= n <= |actions| ==>
        var f := Execute(e, actions[..n]); InUse(f, p) && f.slots[p].value.creator == creator
  }

  /** A machine sends at most one INVITE, so its SIP call ID stays the one the stack gave it. */
  lemma MarkKept(e: Engine, a: Action, p: nat, mark: nat, id: int)
    requires EngineInv(e) && Enabled(e, a) && InUse(e, p) && InUse(Fire(e, a), p)
    requires e.slots[p].value.sipMark == mark && 0 < mark <= |e.ids.stackIds| && e.ids.stackIds[mark - 1] == id > 0
    ensures Fire(e, a).slots[p].value.sipMark == mark
    ensures mark <= |Fire(e, a).ids.stackIds| && Fire(e, a).ids.stackIds[mark - 1] == id
  {
    IdsOnlyGrow(e, a);
    LiveSlotOk(e, p);
    var s := e.slots[p].value;
    if a.DoBeginInvite? && a.pos == p {
      SendsOnce(e.ids, s, a.answers);
    } else {
      OtherStepsKeepMark(e, a, p);
    }
  }

  lemma SendsOnce(ids: Ids, s: Slot, a: Answers)
    requires SlotInv(s) && IdsTraced(ids, s) && SendsInvite(s, a)
    ensures s.sipMark == 0 || ids.stackIds[s.sipMark - 1] == 0
  {
    DecidedBy(s.machine.path, Checking);
  }

  lemma IdsOnlyGrow(e: Engine, a: Action)
    requires Enabled(e, a)
    ensures e.ids.stackIds <= Fire(e, a).ids.stackIds
  {
    if a.DoRoute? {
      RouteIs(e, a.src, a.info, a.told);
    }
  }

  lemma OtherStepsKeepMark(e: Engine, a: Action, p: nat)
    requires Enabled(e, a) && InUse(e, p) && InUse(Fire(e, a), p) && !(a.DoBeginInvite? && a.pos == p)
    ensures Fire(e, a).slots[p].value.sipMark == e.slots[p].value.sipMark
  {
    match a
    case DoRoute(src, info, told) => RouteKeepsMark(e, src, info, told, p);
    case DoHandle(q, answers) => HandleKeepsMark(e, q, answers, p);
    case _ =>
  }

  lemma RouteKeepsMark(e: Engine, src: Source, info: CallInfo, told: bool, p: nat)
    requires CanRoute(e, src, info) && InUse(e, p) && InUse(Route(e, src, info, told), p)
    ensures Route(e, src, info, told).slots[p].value.sipMark == e.slots[p].value.sipMark
  {
    RouteIs(e, src, info, told);
  }

  lemma HandleKeepsMark(e: Engine, q: nat, a: Answers, p: nat)
    requires CanHandle(e, q, a) && InUse(e, p) && InUse(HandleStep(e, q, a), p)
    ensures HandleStep(e, q, a).slots[p].value.sipMark == e.slots[p].value.sipMark
  {
  }

  lemma {:induction false} MarkKeptOnRun(e: Engine, actions: seq<Action>, p: nat, creator: Item, mark: nat, id: int)
    requires EngineInv(e) && Stays(e, actions, p, creator)
    requires InUse(e, p) && e.slots[p].value.sipMark == mark && 0 < mark <= |e.ids.stackIds|
    requires e.ids.stackIds[mark - 1] == id > 0
    ensures var f := Execute(e, actions);
            && EngineInv(f) && InUse(f, p) && f.slots[p].value.sipMark == mark
            && mark <= |f.ids.stackIds| && f.ids.stackIds[mark - 1] == id
    decreases |actions|
  {
    if actions != [] {
      var n := |actions| - 1;
      StaysBefore(e, actions, p, creator);
      MarkKeptOnRun(e, actions[..n], p, creator, mark, id);
      MarkKeptNext(Execute(e, actions[..n]), actions[n], p, mark, id);
    }
  }

  lemma StaysBefore(e: Engine, actions: seq<Action>, p: nat, creator: Item)
    requires actions != [] && Stays(e, actions, p, creator)
    ensures Stays(e, actions[..|actions| - 1], p, creator) && InUse(Execute(e, actions), p)
  {
    var n := |actions| - 1;
    assert forall k :: 0 <= k <= n ==> actions[..n][..k] == actions[..k];
    assert actions[..|actions|] == actions;
  }

  lemma MarkKeptNext(e: Engine, a: Action, p: nat, mark: nat, id: int)
    requires EngineInv(e) && InUse(e, p) && (Enabled(e, a) ==> InUse(Fire(e, a), p))
    requires e.slots[p].value.sipMark == mark && 0 < mark <= |e.ids.stackIds| && e.ids.stackIds[mark - 1] == id > 0
    ensures var f := if Enabled(e, a) then Fire(e, a) else e;
            && EngineInv(f) && InUse(f, p) && f.slots[p].value.sipMark == mark
            && mark <= |f.ids.stackIds| && f.ids.stackIds[mark - 1] == id
  {
    if Enabled(e, a) {
      StepKeepsEngine(e, a);
      MarkKept(e, a, p, mark, id);
    }
  }

  predicate GivenId(ids: Ids, s: Slot, id: int) {
    0 < s.sipMark <= |ids.stackIds| && ids.stackIds[s.sipMark - 1] == id
  }

  /** A lookup of a positive SIP call ID finds the slot that was given it. */
  lemma LookupFindsOwner(e: Engine, p: nat, id: int)
    requires EngineInv(e) && StackIdsDistinct(e) && e.lock == Free && InUse(e, p)
    requires GivenId(e.ids, e.slots[p].value, id) && id > 0
    ensures FirstWith(SipCallIdsOf(e.slots), id) == p
  {
    PublishedId(e, p, id);
    var ids := SipCallIdsOf(e.slots);
    forall q | 0 <= q < |ids| && ids[q] == Some(id)
      ensures q == p
    {
      if q != p {
        PublishedId(e, q, id);
        CreatorsDistinct(e, p, q);
        SameMark(e, p, q, id);
      }
    }
    FirstWithIs(ids, id, p);
  }

  /** While the lock is free, a slot has stored a positive SIP call ID exactly if it was given it. */
  lemma PublishedId(e: Engine, p: nat, id: int)
    requires EngineInv(e) && e.lock == Free && InUse(e, p) && id > 0
    ensures e.slots[p].value.sipCallId == id <==> GivenId(e.ids, e.slots[p].value, id)
    ensures IdsTraced(e.ids, e.slots[p].value)
  {
    LiveSlotOk(e, p);
    assert SlotLinked(e.slots[p].value, p, e.lock, e.gui.router, e.sip.router);
  }

  lemma SameMark(e: Engine, p: nat, q: nat, id: int)
    requires StackIdsDistinct(e) && InUse(e, p) && InUse(e, q) && id > 0
    requires IdsTraced(e.ids, e.slots[p].value) && IdsTraced(e.ids, e.slots[q].value)
    requires GivenId(e.ids, e.slots[p].value, id) && GivenId(e.ids, e.slots[q].value, id)
    ensures UidOf(e.slots[p].value.creator) == UidOf(e.slots[q].value.creator)
  {
    var i, j := e.slots[p].value.sipMark - 1, e.slots[q].value.sipMark - 1;
    assert e.ids.stackIds[i] == e.ids.stackIds[j];
    assert i == j;
  }

  /**
   Once the INVITE is out with a positive SIP call ID, every lookup of that ID until the machine ends
   finds its slot: lookups take queuesLock, which the machine holds until the ID is stored.
   */
  lemma NoEarlyAnswerMissed(maxCalls: nat, maxEvents: nat, before: seq<Action>, p: nat, a: Answers, after: seq<Action>)
    requires maxEvents >= 2 && a.inviteResult > 0
    requires Enabled(Execute(Boot(maxCalls, maxEvents), before), DoBeginInvite(p, a))
    requires var sent := Fire(Execute(Boot(maxCalls, maxEvents), before), DoBeginInvite(p, a));
             Stays(sent, after, p, sent.slots[p].value.creator)
    ensures var now := Execute(Fire(Execute(Boot(maxCalls, maxEvents), before), DoBeginInvite(p, a)), after);
            now.lock == Free && StackIdsDistinct(now) ==>
              FirstWith(SipCallIdsOf(now.slots), a.inviteResult) == p
  {
    ExecuteKeeps(maxCalls, maxEvents, before);
    var e := Execute(Boot(maxCalls, maxEvents), before);
    var sent := Fire(e, DoBeginInvite(p, a));
    StepKeepsEngine(e, DoBeginInvite(p, a));
    assert sent.slots[p].value.sipMark == |sent.ids.stackIds|;
    MarkKeptOnRun(sent, after, p, sent.slots[p].value.creator, |sent.ids.stackIds|, a.inviteResult);
    var now := Execute(sent, after);
    if now.lock == Free && StackIdsDistinct(now) {
      LookupFindsOwner(now, p, a.inviteResult);
    }
  }

  // ---------------------------------------------------------------- which events a state can see

  /**
   INITIAL only ever handles the event that created the machine, and that event always leads out of it
   or to an error: the branches that ignore an event there are dead, and so is the missing callee.
   */
  lemma InitialSeesCreator(maxCalls: nat, maxEvents: nat, actions: seq<Action>, p: nat)
    requires maxEvents >= 2
    requires var e := Execute(Boot(maxCalls, maxEvents), actions);
             InUse(e, p) && e.slots[p].value.machine.state == Initial && !e.slots[p].value.machine.failed
    ensures var s := Execute(Boot(maxCalls, maxEvents), actions).slots[p].value;
            && s.consumed == []
            && (s.creator.trigger.GuiMakeCall?
                || (s.creator.trigger.SipReceive? && s.creator.trigger.sip.kind == CallInvite))
            && (s.creator.trigger.GuiMakeCall? ==> s.creator.trigger.callee.Some?)
            && (s.phase.Handling? ==> s.phase.item == s.creator)
            && (s.phase in {AtLoop, Asleep, Leaving} ==> s.pool != [] && s.pool[0] == s.creator)
  {
    ExecuteKeeps(maxCalls, maxEvents, actions);
    var e := Execute(Boot(maxCalls, maxEvents), actions);
    LiveSlotOk(e, p);
    assert HasCallee(e.accepted[UidOf(e.slots[p].value.creator)].trigger);
  }

  lemma InitialAlwaysLeaves(m: Machine, t: Trigger, a: Answers, room: bool)
    requires !m.failed && m.state == Initial && IsCreating(t)
    ensures var m' := Step(m, t, a, room).m; m'.failed || m'.state in {Checking, Ringing}
  {
    InitialMoves(m, t, a, room);
  }

  /** The account answer is in the pool or in hand exactly while CHECKING, and no SIP event comes before the INVITE. */
  lemma CheckingSeesAnswer(maxCalls: nat, maxEvents: nat, actions: seq<Action>, p: nat)
    requires maxEvents >= 2 && InUse(Execute(Boot(maxCalls, maxEvents), actions), p)
    ensures var s := Execute(Boot(maxCalls, maxEvents), actions).slots[p].value;
            var checking := s.machine.state == Checking && !s.machine.failed;
            && AccountAnswers(InHand(s.phase) + s.pool) == (if checking then 1 else 0)
            && (s.creator.trigger.GuiMakeCall? && s.machine.state in {Initial, Checking} ==>
                  s.sipCallId == 0 && forall i :: 0 <= i < |s.routed| ==> !s.routed[i].trigger.SipReceive?)
  {
    ExecuteKeeps(maxCalls, maxEvents, actions);
    LiveSlotOk(Execute(Boot(maxCalls, maxEvents), actions), p);
  }

  // ---------------------------------------------------------------- every call, live or over

  ghost predicate CallOk(s: Slot) {
    var h, w := s.machine.trace, Statuses(s.machine.trace);
    && Lawful(h)
    && (if s.creator.trigger.GuiMakeCall? then OutgoingWord(w) else IncomingWord(w))
    && (s.machine.state == Final <==> w != [] && w[|w| - 1] == CsTerminated)
    && (s.creator.trigger.GuiMakeCall? ==> Ringing !in s.machine.path && Connecting !in s.machine.path)
    && (s.creator.trigger.SipReceive? ==> Checking !in s.machine.path && Inviting !in s.machine.path)
  }

  lemma SlotCallOk(s: Slot)
    requires SlotInv(s)
    ensures CallOk(s)
  {
    var m := s.machine;
    SideMeaning(m.path, m.state);
    SideExcludes(m.path, m.state);
    LanguageOf(m.state, SideOf(m.path), FactsOf(m.trace).word, m.trace);
    if SideOf(m.path) == Undecided {
      var none: seq<CallStatus> := [];
      assert BodyAt(none, 0, OUTGOING_PROGRESS, OUTGOING_OUTCOME) && BodyAt(none, 0, NO_PROGRESS, INCOMING_OUTCOME);
    }
  }

  lemma CallsOk(e: Engine)
    requires HistoryOk(e) && SlotsOk(e)
    ensures forall p :: InUse(e, p) ==> CallOk(e.slots[p].value)
    ensures forall i :: 0 <= i < |e.ended| ==> CallOk(e.ended[i])
  {
    forall p | InUse(e, p)
      ensures CallOk(e.slots[p].value)
    {
      LiveSlotOk(e, p);
      SlotCallOk(e.slots[p].value);
    }
    forall i | 0 <= i < |e.ended|
      ensures CallOk(e.ended[i])
    {
      SlotCallOk(e.ended[i]);
    }
  }

  lemma EveryCallOk(maxCalls: nat, maxEvents: nat, actions: seq<Action>)
    requires maxEvents >= 2
    ensures var e := Execute(Boot(maxCalls, maxEvents), actions);
            && (forall p :: InUse(e, p) ==> CallOk(e.slots[p].value))
            && (forall i :: 0 <= i < |e.ended| ==> CallOk(e.ended[i]))
  {
    ExecuteKeeps(maxCalls, maxEvents, actions);
    var e := Execute(Boot(maxCalls, maxEvents), actions);
    CallsOk(e);
  }

  // ---------------------------------------------------------------- calls refused for lack of a slot

  /** A refused call was told TERMINATED exactly once, under its own call ID. */
  predicate RefusalOk(r: Refusal) {
    r.item.trigger.GuiMakeCall? ==>
      && r.item.trigger.callId > 0
      && |r.effects| == 2 && r.effects[0].UserEvent?
      && r.effects[1].Status? && r.effects[1].status == CsTerminated && r.effects[1].callId == r.item.trigger.callId
  }

  ghost predicate RefusalsOk(e: Engine) {
    forall i :: 0 <= i < |e.refused| ==> RefusalOk(e.refused[i])
  }

  /** What one step adds to the refusals. */
  ghost predicate RefusesAtMost(e: Engine, e': Engine, item: Item) {
    || e'.refused == e.refused
    || exists r :: e'.refused == e.refused + [r] && r.item == item && MakeCallTold(r)
  }

  ghost predicate MakeCallTold(r: Refusal) {
    r.item.trigger.GuiMakeCall? ==> exists told :: r.effects == NoSlotEffects(r.item.trigger, told)
  }

  lemma RouteRefuses(e: Engine, src: Source, info: CallInfo, told: bool)
    requires FrontOf(e, src).router.Holding?
    ensures RefusesAtMost(e, Route(e, src, info, told), FrontOf(e, src).router.item)
  {
    RouteIs(e, src, info, told);
    var item := FrontOf(e, src).router.item;
    var e' := Route(e, src, info, told);
    if e'.refused != e.refused {
      var r := e'.refused[|e.refused|];
      assert e'.refused == e.refused + [r] && r.item == item;
      assert MakeCallTold(r);
    }
  }

  lemma RefusalOkWhenTold(r: Refusal, ids: Ids)
    requires MakeCallTold(r) && Marked(ids, r.item)
    ensures RefusalOk(r)
  {
    if r.item.trigger.GuiMakeCall? {
      KthId(r.item.mark);
    }
  }

  lemma RefusalStep(e: Engine, a: Action)
    requires EngineInv(e) && RefusalsOk(e) && Enabled(e, a)
    ensures RefusalsOk(Fire(e, a))
  {
    if a.DoRoute? {
      RouteRefusals(e, a.src, a.info, a.told);
    } else if a.DoPlace? {
      PlaceStep(e, a.src);
      PlaceIsDelivery(e, a.src);
      assert Fire(e, a).refused == e.refused;
    } else {
      OthersRefuseNothing(e, a);
    }
  }

  lemma OthersRefuseNothing(e: Engine, a: Action)
    requires Enabled(e, a) && !a.DoRoute? && !a.DoPlace?
    ensures Fire(e, a).refused == e.refused
  {
  }

  lemma RouteRefusals(e: Engine, src: Source, info: CallInfo, told: bool)
    requires FrontsOk(e) && RefusalsOk(e) && FrontOf(e, src).router.Holding?
    ensures RefusalsOk(Route(e, src, info, told))
  {
    RouteRefuses(e, src, info, told);
    var item, e' := FrontOf(e, src).router.item, Route(e, src, info, told);
    if e'.refused != e.refused {
      var r :| e'.refused == e.refused + [r] && r.item == item && MakeCallTold(r);
      HandMarked(e, src);
      RefusalOkWhenTold(r, e.ids);
    }
  }

  lemma HandMarked(e: Engine, src: Source)
    requires FrontsOk(e) && FrontOf(e, src).router.Holding?
    ensures Marked(e.ids, FrontOf(e, src).router.item)
  {
  }

  /** A call refused for lack of a slot gets exactly one TERMINATED: it reaches no machine. */
  lemma {:induction false} RefusedCallsTerminated(maxCalls: nat, maxEvents: nat, actions: seq<Action>)
    requires maxEvents >= 2
    ensures var e := Execute(Boot(maxCalls, maxEvents), actions);
            && RefusalsOk(e)
            && forall i :: 0 <= i < |e.refused| ==> e.refused[i].item !in Routed(e.slots, e.ended)
    decreases |actions|
  {
    ExecuteKeeps(maxCalls, maxEvents, actions);
    var e := Execute(Boot(maxCalls, maxEvents), actions);
    if actions != [] {
      var before, a := actions[..|actions| - 1], actions[|actions| - 1];
      RefusedCallsTerminated(maxCalls, maxEvents, before);
      ExecuteKeeps(maxCalls, maxEvents, before);
      var f := Execute(Boot(maxCalls, maxEvents), before);
      if Enabled(f, a) {
        RefusalStep(f, a);
      }
    }
    forall i | 0 <= i < |e.refused|
      ensures e.refused[i].item !in Routed(e.slots, e.ended)
    {
      RefusedOnce(e, i);
    }
  }

  lemma RefusedOnce(e: Engine, i: nat)
    requires EngineInv(e) && i < |e.refused|
    ensures e.refused[i].item !in Routed(e.slots, e.ended)
  {
    var x := e.refused[i].item;
    assert RefusedItems(e.refused)[i] == x;
    assert x in multiset(RefusedItems(e.refused));
    assert Diverted(e.registrar, e.refused)[x] >= 1;
    assert x in multiset(e.accepted);
    var k :| 0 <= k < |e.accepted| && e.accepted[k] == x;
    CountOne(e.accepted, k);
  }
}
