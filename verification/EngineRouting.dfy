/** The steps of event_dispatch and of the two dispatcher threads keep the engine's invariant. */
module EngineRouting {
  import opened Options
  import opened Events
  import opened Transactions
  import opened CallMachine
  import opened CallSlots
  import opened SlotSearch
  import opened CallEngine
  import opened EngineInvariant

  // ---------------------------------------------------------------- event_dispatch

  lemma IdsGrow(e: Engine, ids: Ids)
    requires EngineInv(e) && Later(e.ids, ids)
    ensures EngineInv(e.(ids := ids))
  {
    FrontGrows(e.gui, Gui, e.accepted, e.ids, e.accepted, ids);
    FrontGrows(e.sip, Sip, e.accepted, e.ids, e.accepted, ids);
    SlotsGrow(e, ids);
  }

  lemma SlotsGrow(e: Engine, ids: Ids)
    requires SlotsOk(e) && Later(e.ids, ids)
    ensures SlotsOk(e.(ids := ids))
  {
    forall p | 0 <= p < |e.slots| && e.slots[p].Some?
      ensures SlotOk(e.slots[p].value, e.maxEvents, ids, e.gui.bound, e.sip.bound, e.accepted)
    {
      SlotGrows(e.slots[p].value, e.maxEvents, e.ids, e.gui.bound, e.sip.bound, e.accepted,
                ids, e.gui.bound, e.sip.bound, e.accepted);
    }
  }

  lemma FrontAppends(f: Front, src: Source, accepted: seq<Item>, ids: Ids, item: Item)
    requires FrontOk(f, src, accepted, ids) && |f.pool| < EVT_DP_QUEUE_SIZE
    requires Marked(ids, item) && item.uid == |accepted| && SourceOf(item.trigger) == src
    requires |ids.stackIds| == |ids.stackFor|
    ensures FrontOk(f.(pool := f.pool + [item]), src, accepted + [item], ids)
  {
    FrontGrows(f, src, accepted, ids, accepted + [item], ids);
    assert Waiting(accepted + [item], ids, src, f.bound, item);
  }

  lemma AppendedItems(f: Front, item: Item)
    ensures AtFront(f.(pool := f.pool + [item])) == AtFront(f) + multiset{item}
  {
  }

  lemma AppendConserved(e: Engine, src: Source, item: Item)
    requires Conserved(e)
    ensures Conserved(Append(e, src, item))
  {
    var e' := Append(e, src, item);
    AppendedItems(FrontOf(e, src), item);
    assert Arriving(e'.gui, e'.sip) == Arriving(e.gui, e.sip) + multiset{item};
    assert multiset(e.accepted + [item]) == multiset(e.accepted) + multiset{item};
    Adds(Arriving(e.gui, e.sip), Routed(e.slots, e.ended), Diverted(e.registrar, e.refused), multiset{item});
  }

  lemma Adds(a: multiset<Item>, b: multiset<Item>, c: multiset<Item>, x: multiset<Item>)
    ensures (a + x) + b + c == a + b + c + x
  {
  }

  lemma AppendSlots(e: Engine, src: Source, item: Item)
    requires SlotsOk(e) && |e.ids.stackIds| == |e.ids.stackFor|
    ensures SlotsOk(Append(e, src, item))
  {
    forall p | 0 <= p < |e.slots| && e.slots[p].Some?
      ensures SlotOk(e.slots[p].value, e.maxEvents, e.ids, e.gui.bound, e.sip.bound, e.accepted + [item])
    {
      SlotGrows(e.slots[p].value, e.maxEvents, e.ids, e.gui.bound, e.sip.bound, e.accepted,
                e.ids, e.gui.bound, e.sip.bound, e.accepted + [item]);
    }
  }

  lemma AppendFronts(e: Engine, src: Source, item: Item)
    requires FrontsOk(e) && HistoryOk(e) && |FrontOf(e, src).pool| < EVT_DP_QUEUE_SIZE
    requires Marked(e.ids, item) && item.uid == |e.accepted| && SourceOf(item.trigger) == src
    requires HasCallee(item.trigger)
    ensures FrontsOk(Append(e, src, item)) && HistoryOk(Append(e, src, item))
  {
    FrontAppends(FrontOf(e, src), src, e.accepted, e.ids, item);
    FrontGrows(e.gui, Gui, e.accepted, e.ids, e.accepted + [item], e.ids);
    FrontGrows(e.sip, Sip, e.accepted, e.ids, e.accepted + [item], e.ids);
  }

  lemma AppendStep(e: Engine, src: Source, item: Item)
    requires EngineInv(e) && |FrontOf(e, src).pool| < EVT_DP_QUEUE_SIZE
    requires Marked(e.ids, item) && item.uid == |e.accepted| && SourceOf(item.trigger) == src
    requires HasCallee(item.trigger)
    ensures EngineInv(Append(e, src, item))
  {
    AppendConserved(e, src, item);
    AppendSlots(e, src, item);
    AppendFronts(e, src, item);
    AppendLinks(e, src, item);
  }

  lemma AppendLinks(e: Engine, src: Source, item: Item)
    requires LinksOk(e.slots, e.lock, e.gui.router, e.sip.router)
    ensures var e' := Append(e, src, item); LinksOk(e'.slots, e'.lock, e'.gui.router, e'.sip.router)
  {
  }

  lemma AcceptCall(e: Engine, t: Trigger)
    requires EngineInv(e) && t.GuiMakeCall? && t.callee.Some? && t.callee.value != ""
    ensures EngineInv(Accept(e, t))
  {
    var room := |e.gui.pool| < EVT_DP_QUEUE_SIZE;
    var ids := Drawn(e.ids, if room then |e.accepted| else -1);
    IdsGrow(e, ids);
    if room {
      AppendStep(e.(ids := ids), Gui, Outside(|e.accepted|, t.(callId := NextCallId(e)), |e.ids.drawnFor| + 1));
    }
    AcceptCallIs(e, t);
  }

  lemma AcceptCallIs(e: Engine, t: Trigger)
    requires t.GuiMakeCall? && t.callee.Some? && t.callee.value != ""
    ensures var room := |e.gui.pool| < EVT_DP_QUEUE_SIZE;
            var e' := e.(ids := Drawn(e.ids, if room then |e.accepted| else -1));
            var item := Outside(|e.accepted|, t.(callId := NextCallId(e)), |e.ids.drawnFor| + 1);
            Accept(e, t) == if room then Append(e', Gui, item) else e'
  {
  }

  lemma AcceptInvite(e: Engine, t: Trigger)
    requires EngineInv(e) && t.SipReceive? && t.sip.kind == CallInvite
    ensures EngineInv(Accept(e, t))
  {
    var room := |e.sip.pool| < EVT_DP_QUEUE_SIZE;
    var ids := Given(e.ids, t.sip.callId, if room then |e.accepted| else -1);
    IdsGrow(e, ids);
    if room { RoomForInvite(e, t); }
    AcceptInviteIs(e, t);
  }

  lemma RoomForInvite(e: Engine, t: Trigger)
    requires t.SipReceive? && t.sip.kind == CallInvite && |e.sip.pool| < EVT_DP_QUEUE_SIZE
    requires EngineInv(e.(ids := Given(e.ids, t.sip.callId, |e.accepted|)))
    ensures EngineInv(Append(e.(ids := Given(e.ids, t.sip.callId, |e.accepted|)), Sip,
                             Outside(|e.accepted|, t, |e.ids.stackIds| + 1)))
  {
    AppendStep(e.(ids := Given(e.ids, t.sip.callId, |e.accepted|)), Sip,
               Outside(|e.accepted|, t, |e.ids.stackIds| + 1));
  }

  lemma AcceptInviteIs(e: Engine, t: Trigger)
    requires t.SipReceive? && t.sip.kind == CallInvite
    ensures var room := |e.sip.pool| < EVT_DP_QUEUE_SIZE;
            var e' := e.(ids := Given(e.ids, t.sip.callId, if room then |e.accepted| else -1));
            Accept(e, t) == if room then Append(e', Sip, Outside(|e.accepted|, t, |e.ids.stackIds| + 1)) else e'
  {
  }

  lemma AcceptOther(e: Engine, t: Trigger)
    requires EngineInv(e) && !IsCreating(t)
    ensures EngineInv(Accept(e, t))
  {
    if |FrontOf(e, SourceOf(t)).pool| < EVT_DP_QUEUE_SIZE {
      AppendStep(e, SourceOf(t), Outside(|e.accepted|, t, 0));
      assert Accept(e, t) == Append(e, SourceOf(t), Outside(|e.accepted|, t, 0));
    } else {
      assert Accept(e, t) == e;
    }
  }

  lemma AcceptStep(e: Engine, t: Trigger)
    requires EngineInv(e)
    ensures EngineInv(Accept(e, t))
  {
    if t.GuiMakeCall? {
      if t.callee.Some? && t.callee.value != "" {
        AcceptCall(e, t);
      } else {
        assert Accept(e, t) == e;
      }
    } else if t.SipReceive? && t.sip.kind == CallInvite {
      AcceptInvite(e, t);
    } else {
      AcceptOther(e, t);
    }
  }

  // ---------------------------------------------------------------- taking and settling a message

  /** Replacing one front keeps the links of the slots, as long as no placing starts or ends. */
  lemma LinksKept(slots: seq<Option<Slot>>, lock: Lock, gui: Router, sip: Router, gui': Router, sip': Router)
    requires LinksOk(slots, lock, gui, sip)
    requires gui' == gui || !(gui.Placing? || gui'.Placing?)
    requires sip' == sip || !(sip.Placing? || sip'.Placing?)
    ensures LinksOk(slots, lock, gui', sip')
  {
    forall p | 0 <= p < |slots| && slots[p].Some?
      ensures SlotLinked(slots[p].value, p, lock, gui', sip')
    {
      assert SlotLinked(slots[p].value, p, lock, gui, sip);
    }
  }

  function TakenFront(f: Front): Front
    requires f.pool != []
  {
    f.(router := Holding(f.pool[0]), pool := f.pool[1..])
  }

  lemma TakenItems(f: Front)
    requires f.pool != [] && f.router == Idle
    ensures AtFront(TakenFront(f)) == AtFront(f)
  {
    assert f.pool == [f.pool[0]] + f.pool[1..];
  }

  lemma TakenOk(f: Front, src: Source, accepted: seq<Item>, ids: Ids)
    requires FrontOk(f, src, accepted, ids) && f.pool != [] && f.router == Idle
    ensures FrontOk(TakenFront(f), src, accepted, ids)
  {
  }

  /** A front changes hands or settles, nothing else moves. */
  lemma FrontReplaced(e: Engine, src: Source, f: Front)
    requires HistoryOk(e) && SlotsOk(e) && FrontsOk(e) && LinksOk(e.slots, e.lock, e.gui.router, e.sip.router)
    requires FrontOk(f, src, e.accepted, e.ids) && FrontOf(e, src).bound <= f.bound
    requires !FrontOf(e, src).router.Placing? && !f.router.Placing?
    ensures var e' := SetFront(e, src, f);
            && HistoryOk(e') && SlotsOk(e') && FrontsOk(e')
            && LinksOk(e'.slots, e'.lock, e'.gui.router, e'.sip.router)
  {
    var e' := SetFront(e, src, f);
    LinksKept(e.slots, e.lock, e.gui.router, e.sip.router, e'.gui.router, e'.sip.router);
    BoundsGrow(e, src, f);
  }

  lemma BoundsGrow(e: Engine, src: Source, f: Front)
    requires SlotsOk(e) && FrontOf(e, src).bound <= f.bound && |e.ids.stackIds| == |e.ids.stackFor|
    ensures SlotsOk(SetFront(e, src, f))
  {
    var e' := SetFront(e, src, f);
    forall p | 0 <= p < |e.slots| && e.slots[p].Some?
      ensures SlotOk(e.slots[p].value, e.maxEvents, e.ids, e'.gui.bound, e'.sip.bound, e.accepted)
    {
      SlotGrows(e.slots[p].value, e.maxEvents, e.ids, e.gui.bound, e.sip.bound, e.accepted,
                e.ids, e'.gui.bound, e'.sip.bound, e.accepted);
    }
  }

  lemma TakeConserved(e: Engine, src: Source)
    requires Conserved(e) && Enabled(e, DoTake(src))
    ensures Conserved(Take(e, src))
  {
    var e' := Take(e, src);
    TakenItems(FrontOf(e, src));
    ArrivingSame(e.gui, e.sip, e'.gui, e'.sip);
  }

  lemma ArrivingSame(gui: Front, sip: Front, gui': Front, sip': Front)
    requires AtFront(gui) == AtFront(gui') && AtFront(sip) == AtFront(sip')
    ensures Arriving(gui, sip) == Arriving(gui', sip')
  {
  }

  lemma TakeStep(e: Engine, src: Source)
    requires EngineInv(e) && Enabled(e, DoTake(src))
    ensures EngineInv(SetFront(e, src, TakenFront(FrontOf(e, src))))
  {
    TakeConserved(e, src);
    TakenOk(FrontOf(e, src), src, e.accepted, e.ids);
    FrontReplaced(e, src, TakenFront(FrontOf(e, src)));
  }

  predicate InHandOf(f: Front, item: Item) {
    (f.router.Holding? || f.router.Placing?) && f.router.item == item
  }

  predicate Resting(r: Router) {
    r == Idle || r == Dead
  }

  lemma FrontSettles(f: Front, src: Source, accepted: seq<Item>, ids: Ids, item: Item, r: Router)
    requires FrontOk(f, src, accepted, ids) && InHandOf(f, item) && Resting(r)
    ensures FrontOk(f.(router := r, bound := UidOf(item) + 1), src, accepted, ids)
    ensures f.bound <= UidOf(item) < |accepted|
  {
  }

  lemma SettleFronts(e: Engine, src: Source, item: Item, r: Router)
    requires FrontsOk(e) && InHandOf(FrontOf(e, src), item) && Resting(r)
    ensures FrontsOk(Settle(e, src, item, r))
    ensures e.gui.bound <= Settle(e, src, item, r).gui.bound && e.sip.bound <= Settle(e, src, item, r).sip.bound
  {
    FrontSettles(FrontOf(e, src), src, e.accepted, e.ids, item, r);
  }

  lemma ArrivingSettles(e: Engine, src: Source, item: Item, r: Router)
    requires InHandOf(FrontOf(e, src), item) && Resting(r)
    ensures var e' := Settle(e, src, item, r);
            Arriving(e'.gui, e'.sip) + multiset{item} == Arriving(e.gui, e.sip)
  {
    GivesUp(FrontOf(e, src), item, r, UidOf(item) + 1);
  }

  lemma GivesUp(f: Front, item: Item, r: Router, bound: nat)
    requires InHandOf(f, item) && Resting(r)
    ensures AtFront(f.(router := r, bound := bound)) + multiset{item} == AtFront(f)
  {
  }

  lemma Transfer(a: multiset<Item>, b: multiset<Item>, c: multiset<Item>, a': multiset<Item>, x: multiset<Item>)
    requires a' + x == a
    ensures a' + (b + x) + c == a + b + c
    ensures a' + b + (c + x) == a + b + c
  {
  }

  /** What is registered or refused matters to conservation only. */
  lemma Divert(e: Engine, registrar: seq<Item>, refused: seq<Refusal>)
    requires HistoryOk(e) && SlotsOk(e) && FrontsOk(e) && LinksOk(e.slots, e.lock, e.gui.router, e.sip.router)
    ensures var e' := e.(registrar := registrar, refused := refused);
            && HistoryOk(e') && SlotsOk(e') && FrontsOk(e')
            && LinksOk(e'.slots, e'.lock, e'.gui.router, e'.sip.router)
  {
  }

  lemma SettleStep(e: Engine, src: Source, item: Item, r: Router, registrar: seq<Item>, refused: seq<Refusal>)
    requires EngineInv(e) && FrontOf(e, src).router == Holding(item) && Resting(r)
    ensures var e' := Settle(e, src, item, r).(registrar := registrar, refused := refused);
            && HistoryOk(e') && SlotsOk(e') && FrontsOk(e')
            && LinksOk(e'.slots, e'.lock, e'.gui.router, e'.sip.router)
  {
    FrontSettles(FrontOf(e, src), src, e.accepted, e.ids, item, r);
    FrontReplaced(e, src, FrontOf(e, src).(router := r, bound := UidOf(item) + 1));
    Divert(Settle(e, src, item, r), registrar, refused);
  }

  lemma RefuseStep(e: Engine, src: Source, item: Item, effects: seq<Effect>, r: Router)
    requires EngineInv(e) && FrontOf(e, src).router == Holding(item) && Resting(r)
    ensures EngineInv(Refuse(e, src, item, effects, r))
  {
    SettleStep(e, src, item, r, e.registrar, e.refused + [Refusal(item, effects)]);
    RefuseConserved(e, src, item, effects, r);
  }

  lemma RefuseConserved(e: Engine, src: Source, item: Item, effects: seq<Effect>, r: Router)
    requires Conserved(e) && InHandOf(FrontOf(e, src), item) && Resting(r)
    ensures Conserved(Refuse(e, src, item, effects, r))
  {
    var e' := Settle(e, src, item, r);
    ArrivingSettles(e, src, item, r);
    RefusedExtend(e.refused, Refusal(item, effects));
    assert Diverted(e.registrar, e.refused + [Refusal(item, effects)])
        == Diverted(e.registrar, e.refused) + multiset{item};
    Transfer(Arriving(e.gui, e.sip), Routed(e.slots, e.ended), Diverted(e.registrar, e.refused),
             Arriving(e'.gui, e'.sip), multiset{item});
  }

  lemma RegistrarStep(e: Engine, src: Source, item: Item)
    requires EngineInv(e) && FrontOf(e, src).router == Holding(item)
    ensures EngineInv(Settle(e, src, item, Idle).(registrar := e.registrar + [item]))
  {
    SettleStep(e, src, item, Idle, e.registrar + [item], e.refused);
    RegistrarConserved(e, src, item);
  }

  lemma RegistrarConserved(e: Engine, src: Source, item: Item)
    requires Conserved(e) && InHandOf(FrontOf(e, src), item)
    ensures Conserved(Settle(e, src, item, Idle).(registrar := e.registrar + [item]))
  {
    var e' := Settle(e, src, item, Idle);
    ArrivingSettles(e, src, item, Idle);
    assert multiset(e.registrar + [item]) == multiset(e.registrar) + multiset{item};
    assert Diverted(e.registrar + [item], e.refused) == Diverted(e.registrar, e.refused) + multiset{item};
    Transfer(Arriving(e.gui, e.sip), Routed(e.slots, e.ended), Diverted(e.registrar, e.refused),
             Arriving(e'.gui, e'.sip), multiset{item});
  }

  // ---------------------------------------------------------------- creating a slot

  function AfterCreate(e: Engine, src: Source, item: Item, info: CallInfo, p: nat): Engine
    requires p < |e.slots|
  {
    SetFront(SetSlot(e, p, NewSlot(item, info)), src, FrontOf(e, src).(router := Placing(item, p)))
  }

  predicate CanCreate(e: Engine, src: Source, item: Item, info: CallInfo, p: nat) {
    && FrontOf(e, src).router == Holding(item) && IsCreating(item.trigger) && SourceOf(item.trigger) == src
    && p < |e.slots| && e.slots[p].None? && Fresh(Machine(Initial, info, false, [], [Initial]))
  }

  lemma CreatedSlotOk(e: Engine, src: Source, item: Item, info: CallInfo, p: nat)
    requires FrontsOk(e) && HistoryOk(e) && CanCreate(e, src, item, info, p)
    ensures SlotOk(NewSlot(item, info), e.maxEvents, e.ids, e.gui.bound, e.sip.bound, e.accepted)
  {
    NewSlotKeeps(item, info);
    var f := FrontOf(e, src);
    CreatedTraced(f, src, e.accepted, e.ids, item, info);
  }

  lemma CreatedTraced(f: Front, src: Source, accepted: seq<Item>, ids: Ids, item: Item, info: CallInfo)
    requires FrontOk(f, src, accepted, ids) && f.router == Holding(item) && IsCreating(item.trigger)
    requires |ids.stackIds| == |ids.stackFor|
    ensures IdsTraced(ids, NewSlot(item, info)) && IsAccepted(accepted, item)
  {
    assert Waiting(accepted, ids, src, f.bound, item);
  }

  lemma CreatedLinks(e: Engine, src: Source, item: Item, info: CallInfo, p: nat)
    requires LinksOk(e.slots, e.lock, e.gui.router, e.sip.router) && HistoryOk(e) && CanCreate(e, src, item, info, p)
    ensures var e' := AfterCreate(e, src, item, info, p);
            LinksOk(e'.slots, e'.lock, e'.gui.router, e'.sip.router)
  {
    var e' := AfterCreate(e, src, item, info, p);
    forall q | 0 <= q < |e'.slots| && e'.slots[q].Some?
      ensures SlotLinked(e'.slots[q].value, q, e'.lock, e'.gui.router, e'.sip.router)
    {
      if q != p {
        assert SlotLinked(e.slots[q].value, q, e.lock, e.gui.router, e.sip.router);
      }
    }
  }

  lemma CreatedConserved(e: Engine, src: Source, item: Item, info: CallInfo, p: nat)
    requires Conserved(e) && CanCreate(e, src, item, info, p)
    ensures Conserved(AfterCreate(e, src, item, info, p))
  {
    var e' := AfterCreate(e, src, item, info, p);
    RoutedCreates(e.slots, e.ended, p, NewSlot(item, info));
    ArrivingSame(e.gui, e.sip, e'.gui, e'.sip);
  }

  lemma RoutedCreates(slots: seq<Option<Slot>>, ended: seq<Slot>, p: nat, s: Slot)
    requires p < |slots| && slots[p].None? && s.routed == []
    ensures Routed(slots[p := Some(s)], ended) == Routed(slots, ended)
  {
    LiveUpdate(slots, p, Some(s));
    SumCancels(LiveItems(slots[p := Some(s)]), LiveItems(slots), multiset{});
  }

  lemma CreatedFronts(e: Engine, src: Source, item: Item, info: CallInfo, p: nat)
    requires FrontsOk(e) && HistoryOk(e) && CanCreate(e, src, item, info, p)
    ensures FrontsOk(AfterCreate(e, src, item, info, p)) && HistoryOk(AfterCreate(e, src, item, info, p))
  {
  }

  lemma CreateStep(e: Engine, src: Source, item: Item, info: CallInfo, told: bool)
    requires EngineInv(e) && FrontOf(e, src).router == Holding(item) && IsCreating(item.trigger)
    requires Fresh(Machine(Initial, info, false, [], [Initial]))
    ensures EngineInv(Create(e, src, item, info, told))
  {
    var p := FirstFree(e.slots);
    if p == |e.slots| {
      RefuseStep(e, src, item, NoSlotEffects(item.trigger, told), Idle);
    } else {
      CreatedSlotOk(e, src, item, info, p);
      CreatedLinks(e, src, item, info, p);
      CreatedConserved(e, src, item, info, p);
      CreatedFronts(e, src, item, info, p);
      CreatedSlots(e, src, item, info, p);
    }
  }

  lemma CreatedSlots(e: Engine, src: Source, item: Item, info: CallInfo, p: nat)
    requires SlotsOk(e) && FrontsOk(e) && HistoryOk(e) && CanCreate(e, src, item, info, p)
    ensures SlotsOk(AfterCreate(e, src, item, info, p))
  {
    CreatedSlotOk(e, src, item, info, p);
    var e' := AfterCreate(e, src, item, info, p);
    forall q | 0 <= q < |e'.slots| && e'.slots[q].Some?
      ensures SlotOk(e'.slots[q].value, e'.maxEvents, e'.ids, e'.gui.bound, e'.sip.bound, e'.accepted)
    {
      if q != p {
        assert e.slots[q] == e'.slots[q];
      }
    }
  }

  // ---------------------------------------------------------------- putting a message into a slot's pool

  /** The message in hand goes into the pool of slot p, whose next value is s'. */
  function Delivered(e: Engine, src: Source, item: Item, p: nat, s': Slot): Engine
    requires p < |e.slots|
  {
    Settle(SetSlot(e, p, s'), src, item, Idle)
  }

  predicate Delivers(e: Engine, src: Source, item: Item, p: nat, s': Slot) {
    && InHandOf(FrontOf(e, src), item) && SourceOf(item.trigger) == src
    && InUse(e, p)
    && s'.routed == e.slots[p].value.routed + [item]
    && s'.creator == e.slots[p].value.creator
    && (s'.phase.Sending? <==> e.slots[p].value.phase.Sending?)
    && s'.phase != Created
    && (e.slots[p].value.phase == Created <==> FrontOf(e, src).router == Placing(item, p))
  }

  lemma DeliveredConserved(e: Engine, src: Source, item: Item, p: nat, s': Slot)
    requires Conserved(e) && Delivers(e, src, item, p, s') && item.Outside?
    ensures Conserved(Delivered(e, src, item, p, s'))
  {
    var e' := Delivered(e, src, item, p, s');
    ArrivingSettles(e, src, item, Idle);
    RoutedGrows(e.slots, e.ended, p, s', item);
    Transfer(Arriving(e.gui, e.sip), Routed(e.slots, e.ended), Diverted(e.registrar, e.refused),
             Arriving(e'.gui, e'.sip), multiset{item});
  }

  lemma RoutedGrows(slots: seq<Option<Slot>>, ended: seq<Slot>, p: nat, s': Slot, item: Item)
    requires p < |slots| && slots[p].Some? && s'.routed == slots[p].value.routed + [item] && item.Outside?
    ensures Routed(slots[p := Some(s')], ended) == Routed(slots, ended) + multiset{item}
  {
    var s := slots[p].value;
    LiveUpdate(slots, p, Some(s'));
    OutExtend(s.routed, item);
    var a, b, x := LiveItems(slots[p := Some(s')]), LiveItems(slots), OutItems(s.routed);
    assert a + x == (b + multiset{item}) + x;
    SumCancels(a, b + multiset{item}, x);
  }

  lemma DeliveredLinks(e: Engine, src: Source, item: Item, p: nat, s': Slot)
    requires LinksOk(e.slots, e.lock, e.gui.router, e.sip.router) && PlacingOk(e.slots, FrontOf(e, src).router)
    requires Delivers(e, src, item, p, s') && (FrontOf(e, src).router.Placing? ==> FrontOf(e, src).router.pos == p)
    ensures var e' := Delivered(e, src, item, p, s');
            LinksOk(e'.slots, e'.lock, e'.gui.router, e'.sip.router)
  {
    var e' := Delivered(e, src, item, p, s');
    forall q | 0 <= q < |e'.slots| && e'.slots[q].Some?
      ensures SlotLinked(e'.slots[q].value, q, e'.lock, e'.gui.router, e'.sip.router)
    {
      assert e.slots[q].Some?;
      assert SlotLinked(e.slots[q].value, q, e.lock, e.gui.router, e.sip.router);
    }
  }

  lemma DeliveredSlots(e: Engine, src: Source, item: Item, p: nat, s': Slot)
    requires SlotsOk(e) && FrontsOk(e) && HistoryOk(e) && Delivers(e, src, item, p, s')
    requires SlotInv(s') && |s'.pool| <= e.maxEvents && IdsTraced(e.ids, s')
    ensures SlotsOk(Delivered(e, src, item, p, s'))
  {
    var e' := Delivered(e, src, item, p, s');
    SettleFronts(e, src, item, Idle);
    InOrderExtends(e.gui.bound, e.sip.bound, e'.gui.bound, e'.sip.bound, e.slots[p].value.routed, item);
    forall q | 0 <= q < |e'.slots| && e'.slots[q].Some?
      ensures SlotOk(e'.slots[q].value, e.maxEvents, e.ids, e'.gui.bound, e'.sip.bound, e.accepted)
    {
      if q != p {
        SlotGrows(e.slots[q].value, e.maxEvents, e.ids, e.gui.bound, e.sip.bound, e.accepted,
                  e.ids, e'.gui.bound, e'.sip.bound, e.accepted);
      }
    }
  }

  lemma InOrderExtends(gb: nat, sb: nat, gb': nat, sb': nat, routed: seq<Item>, item: Item)
    requires InOrder(gb, sb, routed) && item.Outside? && gb <= gb' && sb <= sb'
    requires (if FromGui(item.trigger) then gb else sb) <= item.uid < (if FromGui(item.trigger) then gb' else sb')
    ensures InOrder(gb', sb', routed + [item])
  {
  }

  lemma DeliveredFronts(e: Engine, src: Source, item: Item, p: nat, s': Slot)
    requires FrontsOk(e) && HistoryOk(e) && Delivers(e, src, item, p, s')
    requires LinksOk(e.slots, e.lock, e.gui.router, e.sip.router)
    ensures FrontsOk(Delivered(e, src, item, p, s')) && HistoryOk(Delivered(e, src, item, p, s'))
  {
    SettleFronts(e, src, item, Idle);
    assert SlotLinked(e.slots[p].value, p, e.lock, e.gui.router, e.sip.router);
  }

  lemma DeliveredStep(e: Engine, src: Source, item: Item, p: nat, s': Slot)
    requires EngineInv(e) && Delivers(e, src, item, p, s') && item.Outside?
    requires SlotInv(s') && |s'.pool| <= e.maxEvents && IdsTraced(e.ids, s')
    requires FrontOf(e, src).router.Placing? ==> FrontOf(e, src).router.pos == p
    ensures EngineInv(Delivered(e, src, item, p, s'))
  {
    DeliveredConserved(e, src, item, p, s');
    DeliveredLinks(e, src, item, p, s');
    DeliveredSlots(e, src, item, p, s');
    DeliveredFronts(e, src, item, p, s');
  }

  lemma PlacedOk(s: Slot, ids: Ids)
    requires SlotInv(s) && s.phase == Created && IdsTraced(ids, s)
    ensures SlotInv(Start(s)) && IdsTraced(ids, Start(s)) && s.pool == []
  {
    StartKeeps(s);
  }

  /** The new slot's pool has room, so the creating event always gets in: the failure branch is dead. */
  lemma PlaceStep(e: Engine, src: Source)
    requires EngineInv(e) && Enabled(e, DoPlace(src))
    ensures var r := FrontOf(e, src).router;
            var s := e.slots[r.pos].value;
            && s.pool == [] && s.creator == r.item
            && EngineInv(Delivered(e, src, r.item, r.pos, Start(s)))
  {
    var r := FrontOf(e, src).router;
    var s := e.slots[r.pos].value;
    assert SlotOk(s, e.maxEvents, e.ids, e.gui.bound, e.sip.bound, e.accepted);
    assert SlotLinked(s, r.pos, e.lock, e.gui.router, e.sip.router);
    PlacedOk(s, e.ids);
    DeliveredStep(e, src, r.item, r.pos, Start(s));
  }

  /** Messages that do not create calls, in the hand of a router that is not placing, go to a started slot. */
  lemma EnqueueStep(e: Engine, src: Source, item: Item, p: nat, told: bool)
    requires EngineInv(e) && FrontOf(e, src).router == Holding(item) && InUse(e, p)
    requires !IsCreating(item.trigger) && !IsAccountAnswer(item.trigger)
    requires e.slots[p].value.phase != Created
    requires item.trigger.SipReceive? ==> e.slots[p].value.sipCallId != 0
    ensures EngineInv(Enqueue(e, src, item, p, told))
  {
    var s := e.slots[p].value;
    if |s.pool| < e.maxEvents {
      assert SlotOk(s, e.maxEvents, e.ids, e.gui.bound, e.sip.bound, e.accepted);
      PutOk(s, e.ids, item);
      PutDelivers(e, src, item, p);
      DeliveredStep(e, src, item, p, Put(s, item));
      EnqueueIs(e, src, item, p, told);
    } else {
      RefuseStep(e, src, item, if FromGui(item.trigger) then [UserEvent(0, told)] else [], Idle);
    }
  }

  lemma PutOk(s: Slot, ids: Ids, item: Item)
    requires SlotInv(s) && IdsTraced(ids, s) && s.phase != Created && item.Outside?
    requires !IsCreating(item.trigger) && !IsAccountAnswer(item.trigger)
    requires item.trigger.SipReceive? ==> s.sipCallId != 0
    ensures SlotInv(Put(s, item)) && IdsTraced(ids, Put(s, item))
  {
    PutKeeps(s, item);
    PutTraced(s, ids, item);
  }

  lemma PutTraced(s: Slot, ids: Ids, item: Item)
    requires IdsTraced(ids, s)
    ensures IdsTraced(ids, Put(s, item))
  {
  }

  lemma PutDelivers(e: Engine, src: Source, item: Item, p: nat)
    requires FrontOf(e, src).router == Holding(item) && SourceOf(item.trigger) == src
    requires InUse(e, p) && e.slots[p].value.phase != Created
    ensures Delivers(e, src, item, p, Put(e.slots[p].value, item))
  {
  }

  lemma EnqueueIs(e: Engine, src: Source, item: Item, p: nat, told: bool)
    requires InUse(e, p) && |e.slots[p].value.pool| < e.maxEvents
    ensures Enqueue(e, src, item, p, told) == Delivered(e, src, item, p, Put(e.slots[p].value, item))
  {
  }

  /** A lookup never finds a slot whose creating event is still on its way: nothing overtakes it. */
  lemma LookupFindsStarted(e: Engine, src: Source, item: Item, p: nat)
    requires EngineInv(e) && FrontOf(e, src).router == Holding(item) && InUse(e, p)
    requires (src == Gui && e.slots[p].value.callId > 0) || (src == Sip && e.slots[p].value.sipCallId > 0)
    ensures e.slots[p].value.phase != Created
  {
    var s := e.slots[p].value;
    assert SlotOk(s, e.maxEvents, e.ids, e.gui.bound, e.sip.bound, e.accepted);
    assert SlotLinked(s, p, e.lock, e.gui.router, e.sip.router);
    if s.phase == Created {
      CreatedIds(s);
    }
  }

  lemma CreatedIds(s: Slot)
    requires SlotInv(s) && s.phase == Created
    ensures s.creator.trigger.GuiMakeCall? ==> s.sipCallId == 0
    ensures s.creator.trigger.SipReceive? ==> s.callId == 0
  {
  }

  lemma DeliverStep(e: Engine, src: Source, item: Item, callId: int, sipCallId: int, told: bool)
    requires EngineInv(e) && FrontOf(e, src).router == Holding(item)
    requires !IsCreating(item.trigger) && !IsAccountAnswer(item.trigger)
    requires if src == Gui then !item.trigger.SipReceive? && sipCallId == 0 else callId == 0
    ensures EngineInv(Deliver(e, src, item, callId, sipCallId, told))
  {
    if callId > 0 {
      var p := FirstWith(CallIdsOf(e.slots), callId);
      if p != -1 {
        LookupFindsStarted(e, src, item, p);
        EnqueueStep(e, src, item, p, told);
      } else {
        RefuseStep(e, src, item, [UserEvent(0, told)], Idle);
      }
    } else if sipCallId > 0 && src == Sip {
      var p := FirstWith(SipCallIdsOf(e.slots), sipCallId);
      if p != -1 {
        LookupFindsStarted(e, src, item, p);
        EnqueueStep(e, src, item, p, told);
      } else {
        RefuseStep(e, src, item, [], Idle);
      }
    } else {
      RefuseStep(e, src, item, [], Idle);
    }
  }

  lemma RouteStep(e: Engine, src: Source, info: CallInfo, told: bool)
    requires CanRoute(e, src, info) && EngineInv(e)
    ensures EngineInv(Route(e, src, info, told))
  {
    var item := FrontOf(e, src).router.item;
    assert SourceOf(item.trigger) == src;
    if IsCreating(item.trigger) {
      CreateStep(e, src, item, info, told);
    } else if item.trigger.SipReceive? && IsRegistration(item.trigger.sip.kind) {
      RegistrarStep(e, src, item);
    } else if item.trigger.SipReceive? {
      DeliverStep(e, src, item, 0, item.trigger.sip.callId, told);
    } else if item.trigger.GuiEndCall? || item.trigger.GuiAcceptCall? {
      DeliverStep(e, src, item, item.trigger.callId, 0, told);
    } else {
      RefuseStep(e, src, item, [], Dead);
    }
    RouteIs(e, src, info, told);
  }

  lemma RouteIs(e: Engine, src: Source, info: CallInfo, told: bool)
    requires FrontOf(e, src).router.Holding?
    ensures var item := FrontOf(e, src).router.item;
            var t := item.trigger;
            Route(e, src, info, told) ==
              if IsCreating(t) then Create(e, src, item, info, told)
              else if t.SipReceive? && IsRegistration(t.sip.kind) then
                Settle(e, src, item, Idle).(registrar := e.registrar + [item])
              else if t.SipReceive? then Deliver(e, src, item, 0, t.sip.callId, told)
              else if t.GuiEndCall? || t.GuiAcceptCall? then Deliver(e, src, item, t.callId, 0, told)
              else Refuse(e, src, item, [], Dead)
  {
  }

  // ---------------------------------------------------------------- every step, every run

  lemma RouterStepKeeps(e: Engine, a: Action)
    requires EngineInv(e) && Enabled(e, a) && (a.DoAccept? || a.DoTake? || a.DoRoute? || a.DoPlace?)
    ensures EngineInv(Fire(e, a))
  {
    match a
    case DoAccept(t) =>
      AcceptStep(e, t);
      assert Fire(e, a) == Accept(e, t);
    case DoTake(src) =>
      TakeStep(e, src);
      assert Fire(e, a) == SetFront(e, src, TakenFront(FrontOf(e, src)));
    case DoRoute(src, info, told) =>
      RouteStep(e, src, info, told);
      assert Fire(e, a) == Route(e, src, info, told);
    case DoPlace(src) =>
      PlaceStep(e, src);
      PlaceIsDelivery(e, src);
  }

  lemma PlaceIsDelivery(e: Engine, src: Source)
    requires Enabled(e, DoPlace(src)) && e.maxEvents >= 2
    requires var r := FrontOf(e, src).router; var s := e.slots[r.pos].value; s.pool == [] && s.creator == r.item
    ensures var r := FrontOf(e, src).router;
            Fire(e, DoPlace(src)) == Delivered(e, src, r.item, r.pos, Start(e.slots[r.pos].value))
  {
  }

  lemma MachineStepKeeps(e: Engine, a: Action)
    requires EngineInv(e) && Enabled(e, a) && !(a.DoAccept? || a.DoTake? || a.DoRoute? || a.DoPlace?)
    ensures EngineInv(Fire(e, a))
  {
    match a
    case DoDequeue(p) => DequeueStep(e, p);
    case DoHandle(p, answers) =>
      HandleStepKeeps(e, p, answers);
      assert Fire(e, a) == HandleStep(e, p, answers);
    case DoTerminate(p, answers) => TerminateStep(e, p, answers);
    case DoBeginInvite(p, answers) => BeginStep(e, p, answers);
    case DoFinishInvite(p, answers) => FinishStep(e, p, answers);
    case DoSleep(p) => SleepStep(e, p);
    case DoWake(p) => WakeStep(e, p);
    case DoDestroy(p) => DestroyStep(e, p);
    case DoShutdownAll =>
      ShutdownStep(e);
      assert Fire(e, a) == e.(slots := MarkShutdown(e.slots));
  }

  lemma StepKeepsEngine(e: Engine, a: Action)
    requires EngineInv(e) && Enabled(e, a)
    ensures EngineInv(Fire(e, a))
  {
    if a.DoAccept? || a.DoTake? || a.DoRoute? || a.DoPlace? {
      RouterStepKeeps(e, a);
    } else {
      MachineStepKeeps(e, a);
    }
  }

  lemma {:induction false} ExecuteKeeps(maxCalls: nat, maxEvents: nat, actions: seq<Action>)
    requires maxEvents >= 2
    ensures EngineInv(Execute(Boot(maxCalls, maxEvents), actions))
    decreases |actions|
  {
    if actions == [] {
      Starts(maxCalls, maxEvents);
    } else {
      var before, a := actions[..|actions| - 1], actions[|actions| - 1];
      ExecuteKeeps(maxCalls, maxEvents, before);
      var e := Execute(Boot(maxCalls, maxEvents), before);
      if Enabled(e, a) {
        StepKeepsEngine(e, a);
      }
    }
  }
}
