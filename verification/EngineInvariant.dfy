/** The invariant of the call engine and the proof that every step keeps it. */
module EngineInvariant {
  import opened Options
  import opened Events
  import opened CallIds
  import opened CallMachine
  import opened CallSafety
  import opened CallSlots
  import opened CallEngine

  // ---------------------------------------------------------------- where accepted messages are

  /** The accepted messages among the events of a pool. */
  function OutItems(items: seq<Item>): multiset<Item>
    decreases |items|
  {
    if items == [] then multiset{}
    else OutItems(items[..|items| - 1]) + Single(items[|items| - 1])
  }

  function Single(item: Item): multiset<Item> {
    if item.Outside? then multiset{item} else multiset{}
  }

  function ItemsOf(slot: Option<Slot>): multiset<Item> {
    if slot.Some? then OutItems(slot.value.routed) else multiset{}
  }

  function LiveItems(slots: seq<Option<Slot>>): multiset<Item>
    decreases |slots|
  {
    if slots == [] then multiset{}
    else LiveItems(slots[..|slots| - 1]) + ItemsOf(slots[|slots| - 1])
  }

  function EndedItems(ended: seq<Slot>): multiset<Item>
    decreases |ended|
  {
    if ended == [] then multiset{}
    else EndedItems(ended[..|ended| - 1]) + OutItems(ended[|ended| - 1].routed)
  }

  function RefusedItems(refused: seq<Refusal>): seq<Item> {
    seq(|refused|, i requires 0 <= i < |refused| => refused[i].item)
  }

  function HandOf(f: Front): multiset<Item> {
    match f.router
    case Holding(item) => multiset{item}
    case Placing(item, _) => multiset{item}
    case _ => multiset{}
  }

  function AtFront(f: Front): multiset<Item> {
    multiset(f.pool) + HandOf(f)
  }

  /** In the message pools and in the hands of the routers. */
  function Arriving(gui: Front, sip: Front): multiset<Item> {
    AtFront(gui) + AtFront(sip)
  }

  /** Routed to a machine, alive or ended. */
  function Routed(slots: seq<Option<Slot>>, ended: seq<Slot>): multiset<Item> {
    LiveItems(slots) + EndedItems(ended)
  }

  /** Handed to the registrar, or refused. */
  function Diverted(registrar: seq<Item>, refused: seq<Refusal>): multiset<Item> {
    multiset(registrar) + multiset(RefusedItems(refused))
  }

  function Everywhere(e: Engine): multiset<Item> {
    Arriving(e.gui, e.sip) + Routed(e.slots, e.ended) + Diverted(e.registrar, e.refused)
  }

  ghost predicate Conserved(e: Engine) {
    Everywhere(e) == multiset(e.accepted)
  }

  // ---------------------------------------------------------------- IDs, order, links between threads

  /** A message that creates a call knows the number of the ID it was given. */
  ghost predicate Marked(ids: Ids, item: Item) {
    && item.Outside?
    && (item.trigger.GuiMakeCall? ==>
          && 1 <= item.mark <= |ids.drawnFor| && ids.drawnFor[item.mark - 1] == item.uid
          && item.trigger.callId == CounterAfter(item.mark))
    && (item.trigger.SipReceive? && item.trigger.sip.kind == CallInvite ==>
          && 1 <= item.mark <= |ids.stackIds| == |ids.stackFor| && ids.stackFor[item.mark - 1] == item.uid
          && item.trigger.sip.callId == ids.stackIds[item.mark - 1])
  }

  /** The IDs of a slot are those drawn for, or given to, the message that created it. */
  ghost predicate IdsTraced(ids: Ids, s: Slot) {
    && (if s.callDraw > 0
        then
          && s.callDraw <= |ids.drawnFor| && ids.drawnFor[s.callDraw - 1] == UidOf(s.creator)
          && s.callId == CounterAfter(s.callDraw)
        else s.callId == 0)
    && (if s.sipMark > 0
        then
          && s.sipMark <= |ids.stackIds| == |ids.stackFor| && ids.stackFor[s.sipMark - 1] == UidOf(s.creator)
          && (if s.phase.Sending? then s.phase.result else s.sipCallId) == ids.stackIds[s.sipMark - 1]
          && (s.phase.Sending? ==> s.phase.result != -1)
        else s.sipCallId == 0 && (s.phase.Sending? ==> s.phase.result == -1))
  }

  /** More IDs have been handed out. */
  predicate Later(ids: Ids, ids': Ids) {
    && ids.drawnFor <= ids'.drawnFor && ids.stackIds <= ids'.stackIds && ids.stackFor <= ids'.stackFor
    && |ids'.stackIds| == |ids'.stackFor|
  }

  predicate SameSource(x: Item, y: Item) {
    x.Outside? && y.Outside? && SourceOf(x.trigger) == SourceOf(y.trigger)
  }

  /** Messages of one source reach a machine in the order they were accepted. */
  ghost predicate InOrder(guiBound: nat, sipBound: nat, routed: seq<Item>) {
    && (forall i :: 0 <= i < |routed| && routed[i].Outside? ==>
          routed[i].uid < if FromGui(routed[i].trigger) then guiBound else sipBound)
    && (forall i, j :: 0 <= i < j < |routed| && SameSource(routed[i], routed[j]) ==> routed[i].uid < routed[j].uid)
  }

  predicate IsAccepted(accepted: seq<Item>, item: Item) {
    item.Outside? && item.uid < |accepted| && accepted[item.uid] == item
  }

  /** What a slot keeps by itself, given the histories. */
  ghost predicate SlotOk(s: Slot, maxEvents: nat, ids: Ids, guiBound: nat, sipBound: nat, accepted: seq<Item>) {
    && SlotInv(s) && |s.pool| <= maxEvents
    && IdsTraced(ids, s)
    && InOrder(guiBound, sipBound, s.routed)
    && IsAccepted(accepted, s.creator)
  }

  /** A slot sends an INVITE exactly while it holds the lock, and is new exactly while its router places it. */
  predicate SlotLinked(s: Slot, p: nat, lock: Lock, gui: Router, sip: Router) {
    && (s.phase.Sending? <==> lock == HeldBy(p))
    && (s.phase == Created <==> (if FromGui(s.creator.trigger) then gui else sip) == Placing(s.creator, p))
  }

  ghost predicate SlotsOk(e: Engine) {
    forall p :: 0 <= p < |e.slots| && e.slots[p].Some? ==>
      SlotOk(e.slots[p].value, e.maxEvents, e.ids, e.gui.bound, e.sip.bound, e.accepted)
  }

  predicate LinksOk(slots: seq<Option<Slot>>, lock: Lock, gui: Router, sip: Router) {
    forall p :: 0 <= p < |slots| && slots[p].Some? ==> SlotLinked(slots[p].value, p, lock, gui, sip)
  }

  ghost predicate Waiting(accepted: seq<Item>, ids: Ids, src: Source, bound: nat, item: Item) {
    IsAccepted(accepted, item) && SourceOf(item.trigger) == src && bound <= item.uid && Marked(ids, item)
  }

  /** The message pool of a dispatcher thread with the message in its hand: in order, all still to be dealt with. */
  ghost predicate FrontOk(f: Front, src: Source, accepted: seq<Item>, ids: Ids) {
    && |f.pool| <= EVT_DP_QUEUE_SIZE && f.bound <= |accepted|
    && (forall i :: 0 <= i < |f.pool| ==> Waiting(accepted, ids, src, f.bound, f.pool[i]))
    && (forall i, j :: 0 <= i < j < |f.pool| ==> UidOf(f.pool[i]) < UidOf(f.pool[j]))
    && (f.router.Holding? || f.router.Placing? ==>
          && Waiting(accepted, ids, src, f.bound, f.router.item)
          && forall i :: 0 <= i < |f.pool| ==> UidOf(f.router.item) < UidOf(f.pool[i]))
  }

  predicate PlacingOk(slots: seq<Option<Slot>>, r: Router) {
    r.Placing? ==>
      && IsCreating(r.item.trigger) && r.pos < |slots| && slots[r.pos].Some?
      && slots[r.pos].value.phase == Created && slots[r.pos].value.creator == r.item
  }

  ghost predicate FrontsOk(e: Engine) {
    && FrontOk(e.gui, Gui, e.accepted, e.ids) && FrontOk(e.sip, Sip, e.accepted, e.ids)
    && PlacingOk(e.slots, e.gui.router) && PlacingOk(e.slots, e.sip.router)
  }

  /** event_dispatch only accepts calls with a callee. */
  predicate HasCallee(t: Trigger) {
    t.GuiMakeCall? ==> t.callee.Some? && t.callee.value != ""
  }

  ghost predicate HistoryOk(e: Engine) {
    && e.maxEvents >= 2
    && |e.ids.stackIds| == |e.ids.stackFor|
    && (forall i :: 0 <= i < |e.accepted| ==>
          e.accepted[i].Outside? && e.accepted[i].uid == i && HasCallee(e.accepted[i].trigger))
    && (forall i :: 0 <= i < |e.ended| ==> SlotInv(e.ended[i]) && e.ended[i].phase == Leaving)
    && (e.lock.HeldBy? ==> InUse(e, e.lock.pos))
  }

  ghost predicate EngineInv(e: Engine) {
    HistoryOk(e) && Conserved(e) && FrontsOk(e) && SlotsOk(e) && LinksOk(e.slots, e.lock, e.gui.router, e.sip.router)
  }

  // ---------------------------------------------------------------- sums

  lemma OutExtend(items: seq<Item>, x: Item)
    ensures OutItems(items + [x]) == OutItems(items) + Single(x)
  {
    assert (items + [x])[..|items|] == items;
  }

  lemma {:induction false} LiveUpdate(slots: seq<Option<Slot>>, p: nat, v: Option<Slot>)
    requires p < |slots|
    ensures LiveItems(slots[p := v]) + ItemsOf(slots[p]) == LiveItems(slots) + ItemsOf(v)
    decreases |slots|
  {
    var n := |slots| - 1;
    var slots' := slots[p := v];
    if p == n {
      assert slots'[..n] == slots[..n];
    } else {
      LiveUpdate(slots[..n], p, v);
      assert slots'[..n] == slots[..n][p := v] && slots'[n] == slots[n] && slots[..n][p] == slots[p];
      Shift(LiveItems(slots[..n][p := v]), ItemsOf(slots[p]), LiveItems(slots[..n]), ItemsOf(v), ItemsOf(slots[n]));
    }
  }

  lemma Shift(a: multiset<Item>, b: multiset<Item>, c: multiset<Item>, d: multiset<Item>, x: multiset<Item>)
    requires a + b == c + d
    ensures (a + x) + b == (c + x) + d
  {
    assert (a + x) + b == (a + b) + x;
    assert (c + x) + d == (c + d) + x;
  }

  lemma SumCancels(a: multiset<Item>, b: multiset<Item>, x: multiset<Item>)
    requires a + x == b + x
    ensures a == b
  {
    assert (a + x) - x == a && (b + x) - x == b;
  }

  lemma {:induction false} LiveSame(slots: seq<Option<Slot>>, slots': seq<Option<Slot>>)
    requires |slots| == |slots'| && forall i :: 0 <= i < |slots| ==> ItemsOf(slots[i]) == ItemsOf(slots'[i])
    ensures LiveItems(slots) == LiveItems(slots')
    decreases |slots|
  {
    if slots != [] {
      var n := |slots| - 1;
      assert forall i :: 0 <= i < n ==> slots[..n][i] == slots[i] && slots'[..n][i] == slots'[i];
      LiveSame(slots[..n], slots'[..n]);
    }
  }

  lemma EndedExtend(ended: seq<Slot>, s: Slot)
    ensures EndedItems(ended + [s]) == EndedItems(ended) + OutItems(s.routed)
  {
    assert (ended + [s])[..|ended|] == ended;
  }

  lemma RefusedExtend(refused: seq<Refusal>, r: Refusal)
    ensures RefusedItems(refused + [r]) == RefusedItems(refused) + [r.item]
  {
  }

  // ---------------------------------------------------------------- the initial state

  lemma {:induction false} NothingLive(n: nat)
    ensures LiveItems(seq(n, _ => None)) == multiset{}
  {
    if n > 0 {
      NothingLive(n - 1);
      var slots: seq<Option<Slot>> := seq(n, _ => None);
      assert slots[..n - 1] == seq(n - 1, _ => None);
    }
  }

  lemma Starts(maxCalls: nat, maxEvents: nat)
    requires maxEvents >= 2
    ensures EngineInv(Boot(maxCalls, maxEvents))
  {
    NothingLive(maxCalls);
    assert RefusedItems([]) == [];
  }

  // ---------------------------------------------------------------- what growing histories keep

  lemma FrontGrows(f: Front, src: Source, accepted: seq<Item>, ids: Ids, accepted': seq<Item>, ids': Ids)
    requires FrontOk(f, src, accepted, ids) && accepted <= accepted' && Later(ids, ids')
    ensures FrontOk(f, src, accepted', ids')
  {
    forall item | Waiting(accepted, ids, src, f.bound, item)
      ensures Waiting(accepted', ids', src, f.bound, item)
    {
    }
  }

  lemma SlotGrows(s: Slot, maxEvents: nat, ids: Ids, gb: nat, sb: nat, accepted: seq<Item>,
                  ids': Ids, gb': nat, sb': nat, accepted': seq<Item>)
    requires SlotOk(s, maxEvents, ids, gb, sb, accepted)
    requires Later(ids, ids') && gb <= gb' && sb <= sb' && accepted <= accepted'
    ensures SlotOk(s, maxEvents, ids', gb', sb', accepted')
  {
  }

  // ---------------------------------------------------------------- steps inside one machine

  /** Only slot p, the lock and the ID histories change. */
  predicate OnlySlot(e: Engine, e': Engine, p: nat, s': Slot) {
    && InUse(e, p)
    && e' == e.(slots := e.slots[p := Some(s')], lock := e'.lock, ids := e'.ids)
    && Later(e.ids, e'.ids)
    && (e'.lock != e.lock ==> e.lock in {Free, HeldBy(p)} && e'.lock in {Free, Leaked, HeldBy(p)})
    && s'.creator == e.slots[p].value.creator
    && (s'.phase == Created <==> e.slots[p].value.phase == Created)
    && (s'.phase.Sending? <==> e'.lock == HeldBy(p))
  }

  lemma MachineLinks(e: Engine, e': Engine, p: nat, s': Slot)
    requires LinksOk(e.slots, e.lock, e.gui.router, e.sip.router) && OnlySlot(e, e', p, s')
    ensures LinksOk(e'.slots, e'.lock, e'.gui.router, e'.sip.router)
  {
    forall q | 0 <= q < |e'.slots| && e'.slots[q].Some?
      ensures SlotLinked(e'.slots[q].value, q, e'.lock, e'.gui.router, e'.sip.router)
    {
      assert e.slots[q].Some?;
    }
  }

  lemma MachineSlots(e: Engine, e': Engine, p: nat, s': Slot)
    requires SlotsOk(e) && OnlySlot(e, e', p, s')
    requires SlotOk(s', e'.maxEvents, e'.ids, e'.gui.bound, e'.sip.bound, e'.accepted)
    ensures SlotsOk(e')
  {
    forall q | 0 <= q < |e'.slots| && e'.slots[q].Some?
      ensures SlotOk(e'.slots[q].value, e'.maxEvents, e'.ids, e'.gui.bound, e'.sip.bound, e'.accepted)
    {
      if q != p {
        SlotGrows(e.slots[q].value, e.maxEvents, e.ids, e.gui.bound, e.sip.bound, e.accepted,
                  e'.ids, e'.gui.bound, e'.sip.bound, e'.accepted);
      }
    }
  }

  lemma MachineFronts(e: Engine, e': Engine, p: nat, s': Slot)
    requires FrontsOk(e) && OnlySlot(e, e', p, s')
    ensures FrontsOk(e')
  {
    FrontGrows(e.gui, Gui, e.accepted, e.ids, e'.accepted, e'.ids);
    FrontGrows(e.sip, Sip, e.accepted, e.ids, e'.accepted, e'.ids);
  }

  lemma MachineConserved(e: Engine, e': Engine, p: nat, s': Slot)
    requires Conserved(e) && OnlySlot(e, e', p, s')
    requires OutItems(s'.routed) == OutItems(e.slots[p].value.routed)
    ensures Conserved(e')
  {
    LiveUpdate(e.slots, p, Some(s'));
    SumCancels(LiveItems(e'.slots), LiveItems(e.slots), OutItems(s'.routed));
  }

  lemma MachineHistory(e: Engine, e': Engine, p: nat, s': Slot)
    requires HistoryOk(e) && OnlySlot(e, e', p, s')
    ensures HistoryOk(e')
  {
  }

  lemma MachineStep(e: Engine, e': Engine, p: nat, s': Slot)
    requires EngineInv(e) && OnlySlot(e, e', p, s')
    requires OutItems(s'.routed) == OutItems(e.slots[p].value.routed)
    requires SlotOk(s', e'.maxEvents, e'.ids, e'.gui.bound, e'.sip.bound, e'.accepted)
    ensures EngineInv(e')
  {
    MachineHistory(e, e', p, s');
    MachineLinks(e, e', p, s');
    MachineSlots(e, e', p, s');
    MachineFronts(e, e', p, s');
    MachineConserved(e, e', p, s');
  }

  lemma DequeueStep(e: Engine, p: nat)
    requires EngineInv(e) && Enabled(e, DoDequeue(p))
    ensures EngineInv(Fire(e, DoDequeue(p)))
  {
    var s := e.slots[p].value;
    DequeuedSlotOk(e, p);
    MachineStep(e, Fire(e, DoDequeue(p)), p, CallSlots.Dequeue(s));
  }

  lemma DequeuedSlotOk(e: Engine, p: nat)
    requires SlotsOk(e) && Enabled(e, DoDequeue(p))
    ensures SlotOk(CallSlots.Dequeue(e.slots[p].value), e.maxEvents, e.ids, e.gui.bound, e.sip.bound, e.accepted)
  {
    CallSlots.DequeueKeeps(e.slots[p].value);
  }

  lemma SleepStep(e: Engine, p: nat)
    requires EngineInv(e) && Enabled(e, DoSleep(p))
    ensures EngineInv(Fire(e, DoSleep(p)))
  {
    SleepKeeps(e.slots[p].value);
    MachineStep(e, Fire(e, DoSleep(p)), p, e.slots[p].value.(phase := Asleep));
  }

  lemma WakeStep(e: Engine, p: nat)
    requires EngineInv(e) && Enabled(e, DoWake(p))
    ensures EngineInv(Fire(e, DoWake(p)))
  {
    WakeKeeps(e.slots[p].value);
    MachineStep(e, Fire(e, DoWake(p)), p, Wake(e.slots[p].value));
  }

  lemma TerminateStep(e: Engine, p: nat, a: Answers)
    requires EngineInv(e) && Enabled(e, DoTerminate(p, a))
    ensures EngineInv(Fire(e, DoTerminate(p, a)))
  {
    TerminateKeeps(e.slots[p].value, a);
    MachineStep(e, Fire(e, DoTerminate(p, a)), p, Terminate(e.slots[p].value, a));
  }

  lemma BeginStep(e: Engine, p: nat, a: Answers)
    requires EngineInv(e) && Enabled(e, DoBeginInvite(p, a))
    ensures EngineInv(Fire(e, DoBeginInvite(p, a)))
  {
    var s, r := e.slots[p].value, a.inviteResult;
    var mark := if r == -1 then 0 else |e.ids.stackIds| + 1;
    BeginInviteKeeps(s, a, r, mark);
    BeginTraced(e.ids, s, r);
    MachineStep(e, Fire(e, DoBeginInvite(p, a)), p, BeginInvite(s, r, mark));
  }

  lemma BeginTraced(ids: Ids, s: Slot, r: int)
    requires IdsTraced(ids, s) && SlotInv(s) && s.phase.Handling? && s.machine.state == Checking
    requires |ids.stackIds| == |ids.stackFor|
    ensures if r == -1 then IdsTraced(ids, BeginInvite(s, r, 0))
            else IdsTraced(Given(ids, r, UidOf(s.creator)), BeginInvite(s, r, |ids.stackIds| + 1))
  {
    DecidedBy(s.machine.path, Checking);
  }

  lemma FinishStep(e: Engine, p: nat, a: Answers)
    requires EngineInv(e) && Enabled(e, DoFinishInvite(p, a))
    ensures EngineInv(Fire(e, DoFinishInvite(p, a)))
  {
    FinishInviteKeeps(e.slots[p].value, a);
    FinishTraced(e.ids, e.slots[p].value, a);
    assert SlotLinked(e.slots[p].value, p, e.lock, e.gui.router, e.sip.router);
    MachineStep(e, Fire(e, DoFinishInvite(p, a)), p, FinishInvite(e.slots[p].value, a));
  }

  lemma FinishTraced(ids: Ids, s: Slot, a: Answers)
    requires IdsTraced(ids, s) && SlotInv(s) && s.phase.Sending?
    ensures IdsTraced(ids, FinishInvite(s, a))
  {
    DecidedBy(s.machine.path, Checking);
  }

  lemma HandleStepKeeps(e: Engine, p: nat, answers: Answers)
    requires CanHandle(e, p, answers) && EngineInv(e)
    ensures EngineInv(HandleStep(e, p, answers))
  {
    var s := e.slots[p].value;
    var a := answers.(newCallId := NextCallId(e));
    HandleOk(s, e.maxEvents, e.ids, e.gui.bound, e.sip.bound, e.accepted, a);
    HandleOnlySlot(e, p, answers);
    MachineStep(e, HandleStep(e, p, answers), p, Handle(s, a, |s.pool| < e.maxEvents, |e.ids.drawnFor| + 1));
  }

  lemma HandleOnlySlot(e: Engine, p: nat, answers: Answers)
    requires CanHandle(e, p, answers) && |e.ids.stackIds| == |e.ids.stackFor|
    requires LinksOk(e.slots, e.lock, e.gui.router, e.sip.router)
    ensures var s, a := e.slots[p].value, answers.(newCallId := NextCallId(e));
            var s' := Handle(s, a, |s.pool| < e.maxEvents, |e.ids.drawnFor| + 1);
            OnlySlot(e, HandleStep(e, p, answers), p, s')
  {
    var s, a := e.slots[p].value, answers.(newCallId := NextCallId(e));
    assert SlotLinked(s, p, e.lock, e.gui.router, e.sip.router);
    HandlePhase(s, a, |s.pool| < e.maxEvents, |e.ids.drawnFor| + 1);
  }

  lemma HandlePhase(s: Slot, a: Answers, room: bool, draw: nat)
    requires s.phase.Handling?
    ensures Handle(s, a, room, draw).phase in {AtLoop, Leaving} && Handle(s, a, room, draw).creator == s.creator
  {
  }

  lemma HandleOk(s: Slot, maxEvents: nat, ids: Ids, gb: nat, sb: nat, accepted: seq<Item>, a: Answers)
    requires SlotOk(s, maxEvents, ids, gb, sb, accepted) && s.phase.Handling? && !SendsInvite(s, a)
    requires a.newCallId == CounterAfter(|ids.drawnFor| + 1) && |ids.stackIds| == |ids.stackFor|
    ensures var s' := Handle(s, a, |s.pool| < maxEvents, |ids.drawnFor| + 1);
            var ids' := if DrawsId(s.machine, s.phase.item.trigger, a) then Drawn(ids, UidOf(s.creator)) else ids;
            && SlotOk(s', maxEvents, ids', gb, sb, accepted) && Later(ids, ids')
            && OutItems(s'.routed) == OutItems(s.routed)
  {
    var room, draw := |s.pool| < maxEvents, |ids.drawnFor| + 1;
    HandleKeeps(s, a, room, draw);
    HandleRoutes(s, a, room, draw);
    HandleTraced(ids, s, a, room);
    InOrderInside(gb, sb, s, a, room, draw);
  }

  lemma HandleTraced(ids: Ids, s: Slot, a: Answers, room: bool)
    requires IdsTraced(ids, s) && s.phase.Handling? && a.newCallId == CounterAfter(|ids.drawnFor| + 1)
    requires |ids.stackIds| == |ids.stackFor|
    ensures var s' := Handle(s, a, room, |ids.drawnFor| + 1);
            var ids' := if DrawsId(s.machine, s.phase.item.trigger, a) then Drawn(ids, UidOf(s.creator)) else ids;
            IdsTraced(ids', s') && Later(ids, ids')
  {
  }

  /** Handling posts at most one event, and only into a pool with room. */
  lemma HandleRoutes(s: Slot, a: Answers, room: bool, draw: nat)
    requires SlotInv(s) && s.phase.Handling? && !SendsInvite(s, a)
    ensures var s' := Handle(s, a, room, draw);
            && OutItems(s'.routed) == OutItems(s.routed)
            && |s'.pool| <= |s.pool| + (if room then 1 else 0)
  {
    var o := Step(s.machine, s.phase.item.trigger, a, room);
    HandOver(s);
    if s.machine.state == Initial {
      InitialMoves(s.machine, s.phase.item.trigger, a, room);
    } else {
      StepMoves(s.machine, s.phase.item.trigger, a, room);
    }
    if o.posted.Some? {
      OutExtend(s.routed, Inside(o.posted.value));
    }
  }

  lemma InOrderInside(guiBound: nat, sipBound: nat, s: Slot, a: Answers, room: bool, draw: nat)
    requires s.phase.Handling? && InOrder(guiBound, sipBound, s.routed)
    ensures InOrder(guiBound, sipBound, Handle(s, a, room, draw).routed)
  {
  }

  lemma DestroyStep(e: Engine, p: nat)
    requires EngineInv(e) && InUse(e, p) && e.slots[p].value.phase == Leaving
    ensures EngineInv(Destroyed(e, p))
  {
    DestroyConserved(e, p);
    DestroyHistory(e, p);
    DestroyLinks(e.slots, e.lock, e.gui.router, e.sip.router, p);
    DestroySlots(e, p);
    DestroyFronts(e, p);
  }

  lemma DestroySlots(e: Engine, p: nat)
    requires SlotsOk(e) && InUse(e, p)
    ensures SlotsOk(Destroyed(e, p))
  {
    var e' := Destroyed(e, p);
    forall q | 0 <= q < |e'.slots| && e'.slots[q].Some?
      ensures SlotOk(e'.slots[q].value, e'.maxEvents, e'.ids, e'.gui.bound, e'.sip.bound, e'.accepted)
    {
      assert q != p && e.slots[q] == e'.slots[q];
    }
  }

  lemma DestroyFronts(e: Engine, p: nat)
    requires FrontsOk(e) && InUse(e, p) && e.slots[p].value.phase == Leaving
    ensures FrontsOk(Destroyed(e, p))
  {
  }

  lemma DestroyHistory(e: Engine, p: nat)
    requires HistoryOk(e) && SlotsOk(e) && LinksOk(e.slots, e.lock, e.gui.router, e.sip.router)
    requires InUse(e, p) && e.slots[p].value.phase == Leaving
    ensures HistoryOk(Destroyed(e, p))
  {
    var s, e' := e.slots[p].value, Destroyed(e, p);
    assert SlotLinked(s, p, e.lock, e.gui.router, e.sip.router);
    LiveSlotOk(e, p);
    EndedKept(e.ended, s);
  }

  lemma EndedKept(ended: seq<Slot>, s: Slot)
    requires forall i :: 0 <= i < |ended| ==> SlotInv(ended[i]) && ended[i].phase == Leaving
    requires SlotInv(s) && s.phase == Leaving
    ensures forall i :: 0 <= i < |ended + [s]| ==> SlotInv((ended + [s])[i]) && (ended + [s])[i].phase == Leaving
  {
  }

  lemma LiveSlotOk(e: Engine, p: nat)
    requires SlotsOk(e) && InUse(e, p)
    ensures SlotInv(e.slots[p].value) && IdsTraced(e.ids, e.slots[p].value)
    ensures IsAccepted(e.accepted, e.slots[p].value.creator)
  {
    assert SlotOk(e.slots[p].value, e.maxEvents, e.ids, e.gui.bound, e.sip.bound, e.accepted);
  }

  lemma DestroyLinks(slots: seq<Option<Slot>>, lock: Lock, gui: Router, sip: Router, p: nat)
    requires LinksOk(slots, lock, gui, sip) && p < |slots|
    ensures LinksOk(slots[p := None], lock, gui, sip)
  {
    var slots' := slots[p := None];
    forall q | 0 <= q < |slots'| && slots'[q].Some?
      ensures SlotLinked(slots'[q].value, q, lock, gui, sip)
    {
      assert slots[q].Some?;
    }
  }

  lemma DestroyConserved(e: Engine, p: nat)
    requires Conserved(e) && InUse(e, p) && e.slots[p].value.phase == Leaving
    ensures Conserved(Destroyed(e, p))
  {
    RoutedEnds(e.slots, e.ended, p);
  }

  lemma RoutedEnds(slots: seq<Option<Slot>>, ended: seq<Slot>, p: nat)
    requires p < |slots| && slots[p].Some?
    ensures Routed(slots[p := None], ended + [slots[p].value]) == Routed(slots, ended)
  {
    var s := slots[p].value;
    LiveUpdate(slots, p, None);
    EndedExtend(ended, s);
    Regroup(LiveItems(slots[p := None]), OutItems(s.routed), LiveItems(slots), EndedItems(ended));
  }

  lemma Regroup(a: multiset<Item>, x: multiset<Item>, b: multiset<Item>, c: multiset<Item>)
    requires a + x == b
    ensures a + (c + x) == b + c
  {
  }

  lemma ShutdownStep(e: Engine)
    requires EngineInv(e) && Enabled(e, DoShutdownAll)
    ensures EngineInv(e.(slots := MarkShutdown(e.slots)))
  {
    ShutdownConserved(e);
    ShutdownFronts(e);
    ShutdownSlots(e);
    ShutdownLinks(e.slots, e.lock, e.gui.router, e.sip.router);
  }

  lemma ShutdownConserved(e: Engine)
    requires Conserved(e)
    ensures Conserved(e.(slots := MarkShutdown(e.slots)))
  {
    LiveSame(e.slots, MarkShutdown(e.slots));
  }

  lemma ShutdownFronts(e: Engine)
    requires FrontsOk(e) && HistoryOk(e)
    ensures var e' := e.(slots := MarkShutdown(e.slots)); FrontsOk(e') && HistoryOk(e')
  {
  }

  lemma ShutdownSlots(e: Engine)
    requires SlotsOk(e)
    ensures SlotsOk(e.(slots := MarkShutdown(e.slots)))
  {
    forall q | 0 <= q < |e.slots| && e.slots[q].Some?
      ensures SlotOk(MarkShutdown(e.slots)[q].value, e.maxEvents, e.ids, e.gui.bound, e.sip.bound, e.accepted)
    {
      ShutdownKeeps(e.slots[q].value);
    }
  }

  lemma ShutdownLinks(slots: seq<Option<Slot>>, lock: Lock, gui: Router, sip: Router)
    requires LinksOk(slots, lock, gui, sip)
    ensures LinksOk(MarkShutdown(slots), lock, gui, sip)
  {
    forall q | 0 <= q < |slots| && slots[q].Some?
      ensures SlotLinked(MarkShutdown(slots)[q].value, q, lock, gui, sip)
    {
      assert SlotLinked(slots[q].value, q, lock, gui, sip);
    }
  }
}
