/** Refreshes are paid for: before the n-th one is sent, n positive events have come for the claim. */
module RegistrarCounts {
  import opened Options
  import opened Events
  import opened RegistrarSpec
  import opened RegistrarThreads
  import opened RegistrarSafety
  import opened RegistrarLeftovers

  /** How many positive events have found this claim. */
  function Positives(log: seq<Event>, c: nat): nat
    decreases |log|
  {
    if log == [] then 0
    else Positives(log[..|log| - 1], c) + if log[|log| - 1] == Positive(c) then 1 else 0
  }

  lemma PositivesExtend(log: seq<Event>, e: Event, c: nat)
    ensures Positives(log + [e], c) == Positives(log, c) + if e == Positive(c) then 1 else 0
  {
    assert (log + [e])[..|log|] == log;
  }

  lemma {:induction false} NoPositivesYet(log: seq<Event>, c: nat)
    requires forall e :: e in log ==> e.claim != c
    ensures Positives(log, c) == 0
    decreases |log|
  {
    if log != [] { NoPositivesYet(log[..|log| - 1], c); }
  }

  /** The event that holds the lock has been counted but not booked. */
  function Pending(m: Manager, p: nat): nat {
    if m.holder.EventAt? && m.holder.pos == p && IsPositive(m.holder.kind) then 1 else 0
  }

  predicate BeforeReport(pc: RegPc, round: nat) {
    FirstWait(pc) || pc == TestRegistered || pc == TellGui || (pc == Leave && round == 0)
  }

  /** How many refreshes have been confirmed and that noted. */
  function ConfirmedBy(pc: RegPc, round: nat): int {
    if pc == SendRefresh || pc == AwaitRefresh || pc == TestRefreshed || pc == Leave || pc == LeaveUnsent then round - 1
    else round
  }

  /** What `booked` positive events suffice for. */
  predicate Paid(a: Acc, pc: RegPc, round: nat, booked: int) {
    if BeforeReport(pc, round) then
      !a.isRefreshed && booked >= (if a.isRegistered || pc == TellGui then 1 else 0)
    else if pc == ClearRefreshed then booked >= 1 + round
    else booked >= 1 + ConfirmedBy(pc, round) + if a.isRefreshed then 1 else 0
  }

  predicate SlotPaid(m: Manager, p: nat)
    requires Shape(m) && p < |m.accs|
  {
    match RegPcOf(m, p)
    case Some(pc) => Paid(m.accs[p], pc, RoundOf(m, p), Positives(m.log, m.claims[p]) - Pending(m, p))
    case None => Unused(m.accs[p]) ==> !m.accs[p].isRefreshed
  }

  ghost predicate AllPaid(m: Manager)
    requires Shape(m)
  {
    && (forall p :: 0 <= p < |m.accs| ==> SlotPaid(m, p))
    && (m.holder.EventAt? ==> m.holder.kind != RegistrationRefreshed)
  }

  lemma MovePays(v: View, ok: bool, log: seq<Event>, booked: int)
    requires ViewOk(v, log) && v.reg.Some? && Paid(v.a, v.reg.value, v.round, booked)
    ensures var r := RegMove(v.a, v.reg.value, v.claim, v.round, ok);
            if r.next == RegDone then Unused(r.a) ==> !r.a.isRefreshed
            else Paid(r.a, r.next, NextRound(v.round, r.next), booked)
  {
    if BeforeReport(v.reg.value, v.round) {
      EarlyMovePays(v, ok, log, booked);
    } else {
      LaterMovePays(v, ok, log, booked);
    }
  }

  lemma EarlyMovePays(v: View, ok: bool, log: seq<Event>, booked: int)
    requires ViewOk(v, log) && v.reg.Some? && BeforeReport(v.reg.value, v.round)
    requires Paid(v.a, v.reg.value, v.round, booked)
    ensures var r := RegMove(v.a, v.reg.value, v.claim, v.round, ok);
            if r.next == RegDone then Unused(r.a) ==> !r.a.isRefreshed
            else Paid(r.a, r.next, NextRound(v.round, r.next), booked)
  {
  }

  lemma LaterMovePays(v: View, ok: bool, log: seq<Event>, booked: int)
    requires ViewOk(v, log) && v.reg.Some? && !BeforeReport(v.reg.value, v.round)
    requires Paid(v.a, v.reg.value, v.round, booked)
    ensures var r := RegMove(v.a, v.reg.value, v.claim, v.round, ok);
            if r.next == RegDone then Unused(r.a) ==> !r.a.isRefreshed
            else Paid(r.a, r.next, NextRound(v.round, r.next), booked)
  {
    assert !FirstWait(v.reg.value) && v.reg.value != ExitHalfway && v.reg.value != RegDone;
    PaidOn(v.a, v.reg.value, v.claim, v.round, ok, booked);
  }

  lemma PaidOn(a: Acc, pc: RegPc, claim: nat, round: nat, ok: bool, booked: int)
    requires !BeforeReport(pc, round) && pc != ExitHalfway && pc != RegDone && Paid(a, pc, round, booked)
    requires a.accountId != -1 && (Refreshing(pc) ==> round > 0)
    ensures var r := RegMove(a, pc, claim, round, ok);
            if r.next == RegDone then Unused(r.a) ==> !r.a.isRefreshed
            else Paid(r.a, r.next, NextRound(round, r.next), booked)
  {
  }

  lemma EventPays(v: View, log: seq<Event>, kind: SipType, booked: int)
    requires ViewOk(v, log) && v.reg.Some? && kind != RegistrationRefreshed
    requires Paid(v.a, v.reg.value, v.round, booked)
    ensures Paid(AfterEvent(v.a, kind), v.reg.value, v.round, booked + if IsPositive(kind) then 1 else 0)
  {
  }

  /** Slot p is as before, and so is what is booked for its claim. */
  predicate SlotKept(m: Manager, m': Manager, p: nat)
    requires Shape(m) && p < |m.accs|
  {
    && Shape(m') && p < |m'.accs| && RegPcOf(m', p) == RegPcOf(m, p)
    && m'.accs[p].(eventArrived := m.accs[p].eventArrived, doShutdown := m.accs[p].doShutdown,
                   informGui := m.accs[p].informGui) == m.accs[p]
    && (RegPcOf(m, p).Some? ==>
          && RoundOf(m', p) == RoundOf(m, p)
          && Positives(m'.log, m'.claims[p]) - Pending(m', p) == Positives(m.log, m.claims[p]) - Pending(m, p))
  }

  lemma KeptIsPaid(m: Manager, m': Manager, p: nat)
    requires Shape(m) && p < |m.accs| && SlotPaid(m, p) && SlotKept(m, m', p)
    ensures SlotPaid(m', p)
  {
  }

  /** Slots in use by a registration thread have claims of their own. */
  lemma OwnedClaim(m: Manager, p: nat)
    requires Inv(m) && p < |m.accs| && RegPcOf(m, p).Some?
    ensures m.accs[p].regId != -1 && m.claims[p] < m.nextClaim
    ensures forall q :: 0 <= q < |m.accs| && q != p && m.accs[q].regId != -1 ==> m.claims[q] != m.claims[p]
  {
    assert ViewOk(ViewOf(m, p), m.log);
  }

  lemma RegPays(m: Manager, i: nat, ok: bool)
    requires Inv(m) && AllPaid(m) && Enabled(m, RegStep(i, ok))
    ensures Shape(RegStepOf(m, i, ok)) && AllPaid(RegStepOf(m, i, ok))
  {
    var t := m.threads[i];
    var r := RegMove(m.accs[t.pos], t.pc, t.claim, t.round, ok);
    RegSlotUsed(m, i);
    NoneLogged(m.accs[t.pos], t.pc, t.claim, t.round, ok);
    assert ViewOk(ViewOf(m, t.pos), m.log) && SlotPaid(m, t.pos);
    MovePays(ViewOf(m, t.pos), ok, m.log, Positives(m.log, m.claims[t.pos]) - Pending(m, t.pos));
    RegMovedPays(m, i, r);
  }

  lemma RegMovedPays(m: Manager, i: nat, r: Move<RegPc>)
    requires ThreadsOk(m) && AllPaid(m) && i < |m.threads| && RegRunning(m.threads[i])
    requires r.entry.Some? ==> !r.entry.value.Positive?
    requires var t := m.threads[i];
             if r.next == RegDone then Unused(r.a) ==> !r.a.isRefreshed
             else Paid(r.a, r.next, NextRound(t.round, r.next), Positives(m.log, m.claims[t.pos]) - Pending(m, t.pos))
    ensures Shape(RegMoved(m, i, r)) && AllPaid(RegMoved(m, i, r))
  {
    var m' := RegMoved(m, i, r);
    RegMovedSlots(m, i, r);
    forall p | 0 <= p < |m'.accs| ensures SlotPaid(m', p) {
      if p != m.threads[i].pos {
        assert SlotPaid(m, p);
        KeptIsPaid(m, m', p);
      }
    }
  }

  /** Neither kind of thread logs a positive event. */
  lemma NoneLogged(a: Acc, pc: RegPc, claim: nat, round: nat, ok: bool)
    ensures var r := RegMove(a, pc, claim, round, ok); r.entry.Some? ==> !r.entry.value.Positive?
  {
  }

  lemma LogKept(log: seq<Event>, entry: Option<Event>, c: nat)
    requires entry.Some? ==> !entry.value.Positive?
    ensures Positives(LogOf(log, entry), c) == Positives(log, c)
  {
    if entry.Some? { PositivesExtend(log, entry.value, c); }
  }

  lemma RegMovedSlots(m: Manager, i: nat, r: Move<RegPc>)
    requires ThreadsOk(m) && i < |m.threads| && RegRunning(m.threads[i])
    requires r.entry.Some? ==> !r.entry.value.Positive?
    ensures var m', q, t := RegMoved(m, i, r), m.threads[i].pos, m.threads[i];
            && Shape(m') && |m'.accs| == |m.accs| && m'.holder == m.holder && q < |m.accs| && m'.accs[q] == r.a
            && RegPcOf(m', q) == (if r.next == RegDone then None else Some(r.next))
            && RoundOf(m', q) == (if r.next == RegDone then 0 else NextRound(t.round, r.next))
            && Positives(m'.log, m'.claims[q]) == Positives(m.log, m.claims[q])
            && forall p :: 0 <= p < |m.accs| && p != q ==> SlotKept(m, m', p)
  {
    var m' := RegMoved(m, i, r);
    LogKept(m.log, r.entry, m.claims[m.threads[i].pos]);
    forall p | 0 <= p < |m.accs| && p != m.threads[i].pos ensures SlotKept(m, m', p) {
      LogKept(m.log, r.entry, m.claims[p]);
    }
  }

  lemma UnregPays(m: Manager, i: nat, ok: bool)
    requires Inv(m) && AllPaid(m) && Enabled(m, UnregStep(i, ok))
    ensures AllPaid(UnregStepOf(m, i, ok))
  {
    var t := m.threads[i];
    var r := UnregMove(m.accs[t.pos], t.upc, t.claim, ok);
    UnregLogsNone(m.accs[t.pos], t.upc, t.claim, ok);
    UnregSlotPaid(m, i, ok);
    UnregMovedPays(m, i, r);
  }

  lemma UnregMovedPays(m: Manager, i: nat, r: Move<UnregPc>)
    requires ThreadsOk(m) && AllPaid(m) && i < |m.threads| && UnregRunning(m.threads[i])
    requires r.entry.Some? ==> !r.entry.value.Positive?
    requires Shape(UnregMoved(m, i, r)) && m.threads[i].pos < |UnregMoved(m, i, r).accs|
    requires SlotPaid(UnregMoved(m, i, r), m.threads[i].pos)
    ensures AllPaid(UnregMoved(m, i, r))
  {
    var m' := UnregMoved(m, i, r);
    UnregMovedSlots(m, i, r);
    forall p | 0 <= p < |m'.accs| ensures SlotPaid(m', p) {
      if p != m.threads[i].pos {
        assert SlotPaid(m, p);
        KeptIsPaid(m, m', p);
      }
    }
  }

  lemma UnregLogsNone(a: Acc, pc: UnregPc, claim: nat, ok: bool)
    ensures var r := UnregMove(a, pc, claim, ok); r.entry.Some? ==> !r.entry.value.Positive?
    ensures pc == Poll ==> UnregMove(a, pc, claim, ok).a == a
  {
  }

  lemma UnregMovedSlots(m: Manager, i: nat, r: Move<UnregPc>)
    requires ThreadsOk(m) && i < |m.threads| && UnregRunning(m.threads[i])
    requires r.entry.Some? ==> !r.entry.value.Positive?
    ensures var m', q := UnregMoved(m, i, r), m.threads[i].pos;
            && Shape(m') && |m'.accs| == |m.accs| && m'.holder == m.holder && q < |m.accs| && m'.accs[q] == r.a
            && RegPcOf(m', q) == RegPcOf(m, q) && RoundOf(m', q) == RoundOf(m, q)
            && Positives(m'.log, m'.claims[q]) == Positives(m.log, m.claims[q])
            && forall p :: 0 <= p < |m.accs| && p != q ==> SlotKept(m, m', p)
  {
    var m' := UnregMoved(m, i, r);
    LogKept(m.log, r.entry, m.claims[m.threads[i].pos]);
    forall p | 0 <= p < |m.accs| && p != m.threads[i].pos ensures SlotKept(m, m', p) {
      LogKept(m.log, r.entry, m.claims[p]);
    }
  }

  lemma UnregSlotPaid(m: Manager, i: nat, ok: bool)
    requires Inv(m) && AllPaid(m) && Enabled(m, UnregStep(i, ok))
    ensures var q, m' := m.threads[i].pos, UnregStepOf(m, i, ok); Shape(m') && q < |m'.accs| && SlotPaid(m', q)
  {
    var t := m.threads[i];
    var r := UnregMove(m.accs[t.pos], t.upc, t.claim, ok);
    UnregSlot(m, i);
    UnregEmpties(m.accs[t.pos], t.upc, t.claim, ok);
    UnregLogsNone(m.accs[t.pos], t.upc, t.claim, ok);
    UnregMovedSlots(m, i, r);
    assert SlotPaid(m, t.pos);
  }

  lemma ClaimPays(m: Manager, accountId: int, regId: int)
    requires Inv(m) && AllPaid(m) && m.holder == Free && Strict(m, StartRegistration(accountId, regId))
    ensures Shape(Begin(m, accountId, regId)) && AllPaid(Begin(m, accountId, regId))
  {
    var m', q := Begin(m, accountId, regId), FindEmpty(m.accs);
    forall p | 0 <= p < |m'.accs| ensures SlotPaid(m', p) {
      assert ViewOk(ViewOf(m, p), m.log);
      if p == q && FindByAccount(m.accs, accountId) == -1 && regId != -1 {
        NewClaimPaid(m, accountId, regId, p);
      } else {
        assert SlotPaid(m, p);
        OthersPaid(m, accountId, regId, p);
      }
    }
  }

  lemma NewClaimPaid(m: Manager, accountId: int, regId: int, p: nat)
    requires Inv(m) && AllPaid(m) && m.holder == Free && Strict(m, StartRegistration(accountId, regId))
    requires p == FindEmpty(m.accs) && FindByAccount(m.accs, accountId) == -1 && regId != -1
    ensures var m' := Begin(m, accountId, regId); Shape(m') && p < |m'.accs| && SlotPaid(m', p)
  {
    assert ViewOk(ViewOf(m, p), m.log);
    FreeSlotUnowned(m, p);
    ClaimedIs(m, accountId, regId, p);
    assert SlotPaid(m, p);
    PositivesExtend(m.log, InitialSent(m.nextClaim), m.nextClaim);
    NoPositivesYet(m.log, m.nextClaim);
  }

  lemma OthersPaid(m: Manager, accountId: int, regId: int, p: nat)
    requires Inv(m) && m.holder == Free && p < |m.accs| && SlotPaid(m, p)
    requires !(p == FindEmpty(m.accs) && FindByAccount(m.accs, accountId) == -1 && regId != -1)
    ensures var m' := Begin(m, accountId, regId); Shape(m') && p < |m'.accs| && SlotPaid(m', p)
  {
    PositivesExtend(m.log, InitialSent(m.nextClaim), m.claims[p]);
    if p == FindEmpty(m.accs) {
      FreeSlotUnowned(m, p);
      UnclaimedPaid(m, accountId, regId, p);
    } else {
      OtherSlotKept(m, accountId, regId, p);
      KeptIsPaid(m, Begin(m, accountId, regId), p);
    }
  }

  lemma UnclaimedPaid(m: Manager, accountId: int, regId: int, p: nat)
    requires Shape(m) && p == FindEmpty(m.accs) && m.owner[p] == None && SlotPaid(m, p)
    requires FindByAccount(m.accs, accountId) != -1 || regId == -1
    ensures var m' := Begin(m, accountId, regId); Shape(m') && p < |m'.accs| && SlotPaid(m', p)
  {
  }

  lemma OtherSlotKept(m: Manager, accountId: int, regId: int, p: nat)
    requires ThreadsOk(m) && m.holder == Free && p < |m.accs| && p != FindEmpty(m.accs)
    requires Positives(m.log + [InitialSent(m.nextClaim)], m.claims[p]) == Positives(m.log, m.claims[p])
    ensures SlotKept(m, Begin(m, accountId, regId), p)
  {
    var q := FindEmpty(m.accs);
    if FindByAccount(m.accs, accountId) == -1 && q != -1 && regId != -1 {
      ClaimElsewhere(m, accountId, regId, p, q);
    } else {
      NoClaimKeeps(m, accountId, regId, p);
    }
  }

  lemma NoClaimKeeps(m: Manager, accountId: int, regId: int, p: nat)
    requires Shape(m) && p < |m.accs| && p != FindEmpty(m.accs)
    requires FindByAccount(m.accs, accountId) != -1 || FindEmpty(m.accs) == -1 || regId == -1
    ensures SlotKept(m, Begin(m, accountId, regId), p)
  {
    var m' := Begin(m, accountId, regId);
    assert m' == m.(accs := m'.accs) && |m'.accs| == |m.accs| && m'.accs[p] == m.accs[p];
  }

  lemma ClaimElsewhere(m: Manager, accountId: int, regId: int, p: nat, q: nat)
    requires ThreadsOk(m) && m.holder == Free && p < |m.accs| && p != q && q == FindEmpty(m.accs)
    requires FindByAccount(m.accs, accountId) == -1 && regId != -1
    requires Positives(m.log + [InitialSent(m.nextClaim)], m.claims[p]) == Positives(m.log, m.claims[p])
    ensures SlotKept(m, Begin(m, accountId, regId), p)
  {
    var m' := Begin(m, accountId, regId);
    assert m'.threads == m.threads + [Registering(accountId, q, m.nextClaim, 0, AwaitOk)];
    assert m'.owner == m.owner[q := Some(|m.threads|)] && m'.claims == m.claims[q := m.nextClaim];
    OwnerKept(m, m', p);
  }

  lemma OwnerKept(m: Manager, m': Manager, p: nat)
    requires ThreadsOk(m) && Shape(m') && p < |m.accs| && p < |m'.accs| && m'.owner[p] == m.owner[p]
    requires m.threads <= m'.threads
    ensures RegPcOf(m', p) == RegPcOf(m, p) && RoundOf(m', p) == RoundOf(m, p)
  {
  }

  lemma LookupPays(m: Manager, regId: int, kind: SipType)
    requires Inv(m) && AllPaid(m) && m.holder == Free && regId != -1 && kind != RegistrationRefreshed
    ensures Shape(LookEventUp(m, regId, kind)) && AllPaid(LookEventUp(m, regId, kind))
  {
    var m', q := LookEventUp(m, regId, kind), FindByRegId(m.accs, regId);
    forall p | 0 <= p < |m'.accs| ensures SlotPaid(m', p) {
      assert SlotPaid(m, p);
      if q != -1 && IsPositive(kind) {
        PositivesExtend(m.log, Positive(m.claims[q]), m.claims[p]);
        if RegPcOf(m, p).Some? && p != q { OwnedClaim(m, p); }
      }
    }
  }

  lemma BookingPays(m: Manager)
    requires Inv(m) && AllPaid(m) && Enabled(m, FinishEvent)
    ensures var m' := BookEvent(m, m.holder.pos, m.holder.kind); Shape(m') && AllPaid(m')
  {
    var m', q, kind := BookEvent(m, m.holder.pos, m.holder.kind), m.holder.pos, m.holder.kind;
    forall p | 0 <= p < |m'.accs| ensures SlotPaid(m', p) {
      assert SlotPaid(m, p) && ViewOk(ViewOf(m, p), m.log);
      if p == q && RegPcOf(m, p).Some? {
        EventPays(ViewOf(m, p), m.log, kind, Positives(m.log, m.claims[p]) - Pending(m, p));
      } else if p == q {
        EventKeepsIds(m.accs[p], kind);
        if Unused(m.accs[p]) { UnusedEventPays(m.accs[p], kind); }
      }
    }
  }

  lemma UnusedEventPays(a: Acc, kind: SipType)
    requires kind != RegistrationRefreshed && !a.isRefreshed && !a.waitingOnRefreshOk
    ensures !AfterEvent(a, kind).isRefreshed
  {
  }

  lemma RestPays(m: Manager, a: Action)
    requires Inv(m) && AllPaid(m) && Enabled(m, a)
    requires a.StartUnregistration? || a.FinishGuard? || a.MuteAll? || a.MuteSlot?
    ensures Shape(Fire(m, a)) && AllPaid(Fire(m, a))
  {
    var m' := Fire(m, a);
    forall p | 0 <= p < |m'.accs| ensures SlotPaid(m', p) {
      assert SlotPaid(m, p);
      RestKeeps(m, a, p);
    }
  }

  lemma RestKeeps(m: Manager, a: Action, p: nat)
    requires Enabled(m, a) && p < |m.accs| && SlotPaid(m, p)
    requires a.StartUnregistration? || a.FinishGuard? || a.MuteAll? || a.MuteSlot?
    ensures Shape(Fire(m, a)) && p < |Fire(m, a).accs| && SlotPaid(Fire(m, a), p)
  {
  }

  lemma StepPays(m: Manager, a: Action)
    requires Inv(m) && AllPaid(m) && Enabled(m, a) && Strict(m, a)
    requires a.ReceiveEvent? ==> a.kind != RegistrationRefreshed
    ensures Shape(Fire(m, a)) && AllPaid(Fire(m, a))
  {
    match a
    case StartRegistration(accountId, regId) => ClaimPays(m, accountId, regId);
    case ReceiveEvent(regId, kind) => LookupPays(m, regId, kind);
    case FinishEvent => BookingPays(m);
    case RegStep(i, ok) => RegPays(m, i, ok);
    case UnregStep(i, ok) => UnregPays(m, i, ok);
    case _ => RestPays(m, a);
  }

  /** eXosip never reports REGISTRATION_REFRESHED. */
  predicate NoRefreshedEvents(actions: seq<Action>) {
    forall k :: 0 <= k < |actions| && actions[k].ReceiveEvent? ==> actions[k].kind != RegistrationRefreshed
  }

  lemma {:induction false} RunPays(n: nat, actions: seq<Action>)
    requires NoRefreshedEvents(actions)
    ensures Shape(Execute(Boot(n), actions)) && AllPaid(Execute(Boot(n), actions))
    decreases |actions|
  {
    if actions != [] {
      var before, a := actions[..|actions| - 1], actions[|actions| - 1];
      RunPays(n, before);
      RunKeeps(n, before);
      var m := Execute(Boot(n), before);
      if Enabled(m, a) && Strict(m, a) { StepPays(m, a); }
    }
  }

  /** A refresh about to be sent is the n-th of its claim only if n positive events have been looked up for it. */
  lemma RefreshesArePaid(n: nat, actions: seq<Action>, i: nat, ok: bool)
    requires NoRefreshedEvents(actions)
    requires var m := Execute(Boot(n), actions); Enabled(m, RegStep(i, ok)) && m.threads[i].pc == SendRefresh
    ensures var m := Execute(Boot(n), actions);
            var t := m.threads[i];
            && RegStepOf(m, i, ok).log == m.log + [RefreshSent(t.claim, t.round, ok)]
            && t.round >= 1 && Positives(m.log, t.claim) >= t.round
  {
    RunPays(n, actions);
    RunKeeps(n, actions);
    var m := Execute(Boot(n), actions);
    RegSlotUsed(m, i);
    assert SlotPaid(m, m.threads[i].pos) && ViewOk(ViewOf(m, m.threads[i].pos), m.log);
  }
}
