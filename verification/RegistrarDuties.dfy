/** What the locked sections of the registrar must do, said case by case, and what comes before a slot is cleared. */
module RegistrarDuties {
  import opened Options
  import opened Events
  import opened RegistrarSpec
  import opened RegistrarThreads
  import opened RegistrarSafety
  import opened RegistrarOrder

  // ---------------------------------------------------------------- unregister-all

  /** These are, in increasing order, the positions of the used slots whose account is registered. */
  ghost predicate RegisteredAt(accs: seq<Acc>, at: seq<nat>) {
    && (forall j, k :: 0 <= j < k < |at| ==> at[j] < at[k])
    && (forall k :: 0 <= k < |at| ==> at[k] < |accs|)
    && (forall i: nat :: i in at <==> i < |accs| && accs[i].accountId != -1 && accs[i].isRegistered)
  }

  /** The accounts to be unregistered are those of exactly these slots, in slot order. */
  lemma {:induction false} UnregistersTheRegistered(accs: seq<Acc>) returns (at: seq<nat>)
    ensures RegisteredAt(accs, at) && |at| == |RegisteredAccounts(accs)|
    ensures forall k :: 0 <= k < |at| ==> RegisteredAccounts(accs)[k] == accs[at[k]].accountId
    decreases |accs|
  {
    if accs == [] {
      at := [];
    } else {
      var n := |accs| - 1;
      var before := UnregistersTheRegistered(accs[..n]);
      at := if accs[n].accountId != -1 && accs[n].isRegistered then before + [n] else before;
      OneMore(accs, before);
    }
  }

  lemma OneMore(accs: seq<Acc>, before: seq<nat>)
    requires accs != [] && RegisteredAt(accs[..|accs| - 1], before)
    ensures var n := |accs| - 1;
            RegisteredAt(accs, if accs[n].accountId != -1 && accs[n].isRegistered then before + [n] else before)
  {
    var n := |accs| - 1;
    assert forall i :: 0 <= i < n ==> accs[..n][i] == accs[i];
    assert forall i: nat :: i in before + [n] <==> i in before || i == n;
  }

  // ---------------------------------------------------------------- events

  /** The slot is the first with this registration ID. */
  predicate FirstWithRegId(accs: seq<Acc>, p: nat, regId: int) {
    p < |accs| && accs[p].regId == regId && forall i :: 0 <= i < p ==> accs[i].regId != regId
  }

  /** Only the first slot with the registration ID learns of an event, and only these three of its fields change. */
  lemma EventChangesOneSlot(accs: seq<Acc>, regId: int, kind: SipType)
    ensures forall p: nat :: FirstWithRegId(accs, p, regId) ==>
              var after := Receive(accs, regId, kind);
              && |after| == |accs| && after[p].eventArrived
              && after[p] == accs[p].(eventArrived := true, isRegistered := after[p].isRegistered,
                                      isRefreshed := after[p].isRefreshed)
              && forall q :: 0 <= q < |accs| && q != p ==> after[q] == accs[q]
    ensures (forall i :: 0 <= i < |accs| ==> accs[i].regId != regId) ==> Receive(accs, regId, kind) == accs
  {
  }

  /** A positive answer confirms what the waiting flags say is outstanding, the first REGISTER before all else. */
  lemma SuccessMeans(a: Acc)
    ensures var b := AfterEvent(a, RegistrationSuccess);
            if a.waitingOnRegOk then b.isRegistered && b.isRefreshed == a.isRefreshed
            else if a.waitingOnRefreshOk then b.isRefreshed && b.isRegistered == a.isRegistered
            else if a.waitingOnUnregOk then !b.isRegistered && b.isRefreshed == a.isRefreshed
            else b.isRegistered == a.isRegistered && b.isRefreshed == a.isRefreshed
  {
  }

  /** A negative one means that the account is not registered, or still is if it was to be unregistered. */
  lemma FailureMeans(a: Acc)
    ensures var b := AfterEvent(a, RegistrationFailure);
            if a.waitingOnRegOk then !b.isRegistered && b.isRefreshed == a.isRefreshed
            else if a.waitingOnRefreshOk then !b.isRegistered && !b.isRefreshed
            else if a.waitingOnUnregOk then b.isRegistered && b.isRefreshed == a.isRefreshed
            else b.isRegistered == a.isRegistered && b.isRefreshed == a.isRefreshed
  {
  }

  /** The other events say it themselves, or say nothing. */
  lemma OtherEventsMean(a: Acc, kind: SipType)
    ensures kind == RegistrationRefreshed ==> AfterEvent(a, kind).isRegistered && AfterEvent(a, kind).isRefreshed
    ensures kind == RegistrationTerminated ==> !AfterEvent(a, kind).isRegistered && !AfterEvent(a, kind).isRefreshed
    ensures (kind != RegistrationSuccess && kind != RegistrationFailure && kind != RegistrationRefreshed &&
             kind != RegistrationTerminated) ==> AfterEvent(a, kind) == a.(eventArrived := true)
  {
  }

  // ---------------------------------------------------------------- requests

  predicate Used(accs: seq<Acc>, accountId: int) {
    exists i :: 0 <= i < |accs| && accs[i].accountId == accountId
  }

  predicate FirstUnused(accs: seq<Acc>, p: nat) {
    p < |accs| && accs[p].accountId == -1 && forall i :: 0 <= i < p ==> accs[i].accountId != -1
  }

  /** What clear_account_info leaves: unused, no flag set but that the GUI is to be told. */
  predicate IsCleared(a: Acc) {
    && a.accountId == -1 && a.regId == -1 && !a.isRegistered && !a.isRefreshed && !a.eventArrived && !a.doShutdown
    && !a.isShutdown && !a.waitingOnRegOk && !a.waitingOnRefreshOk && !a.waitingOnUnregOk && a.informGui
  }

  /** When a registration is refused, when it fails, and which slot it takes with what in it. */
  lemma RegisterDuties(accs: seq<Acc>, accountId: int, regId: int)
    ensures Used(accs, accountId) ==> Register(accs, accountId, regId) == (accs, InUse)
    ensures !Used(accs, accountId) && !Used(accs, -1) ==> Register(accs, accountId, regId) == (accs, NoRoom)
    ensures forall p: nat :: !Used(accs, accountId) && FirstUnused(accs, p) ==>
              var (after, claim) := Register(accs, accountId, regId);
              && |after| == |accs| && (forall q :: 0 <= q < |accs| && q != p ==> after[q] == accs[q])
              && (regId == -1 ==> claim == Failed(p) && IsCleared(after[p]))
              && (regId != -1 ==>
                    && claim == Claimed(p) && after[p].accountId == accountId && after[p].regId == regId
                    && after[p].waitingOnRegOk && !after[p].isRegistered
                    && after[p] == accs[p].(accountId := accountId, regId := regId, waitingOnRegOk := true,
                                            isRegistered := false))
  {
    if !Used(accs, accountId) {
      forall p: nat | FirstUnused(accs, p) ensures FindEmpty(accs) == p {
      }
    }
  }

  predicate FirstWithAccount(accs: seq<Acc>, p: int, accountId: int) {
    0 <= p < |accs| && accs[p].accountId == accountId && forall i :: 0 <= i < p ==> accs[i].accountId != accountId
  }

  /** A request to unregister goes through once: the thread is asked to stop unless it was, or has stopped. */
  lemma UnregisterDuties(accs: seq<Acc>, accountId: int)
    ensures !Used(accs, accountId) ==> RequestShutdown(accs, accountId) == (accs, -1)
    ensures forall p: int :: FirstWithAccount(accs, p, accountId) ==>
              if accs[p].doShutdown || accs[p].isShutdown
              then RequestShutdown(accs, accountId) == (accs, -1)
              else RequestShutdown(accs, accountId) == (accs[p := accs[p].(doShutdown := true)], p)
  {
  }

  // ---------------------------------------------------------------- what the threads decide by

  /** `over` is whether the time to wait is over, or whether a call to the stack or the GUI succeeded. */
  lemma FirstWaitDecides(a: Acc, claim: nat, round: nat, over: bool)
    ensures RegMove(a, AwaitOk, claim, round, over).next == if a.eventArrived || over then ClearArrived else AwaitOk
    ensures RegMove(a, TestRegistered, claim, round, over).next == if a.isRegistered then TellGui else Leave
    ensures RegMove(a, TellGui, claim, round, over).next == if over then TestShutdown else Leave
    ensures RegMove(a, TestShutdown, claim, round, over).next
            == if a.doShutdown then Exit else if over then MarkRefresh else TestShutdown
  {
  }

  lemma RefreshDecides(a: Acc, claim: nat, round: nat, over: bool)
    ensures RegMove(a, SendRefresh, claim, round, over).next == if over then AwaitRefresh else LeaveUnsent
    ensures RegMove(a, AwaitRefresh, claim, round, over).next
            == if a.eventArrived || over then TestRefreshed else AwaitRefresh
    ensures RegMove(a, TestRefreshed, claim, round, over).next == if a.isRefreshed then ClearRefreshed else Leave
  {
  }

  lemma EndsDecide(a: Acc, claim: nat, round: nat, over: bool)
    ensures IsCleared(RegMove(a, Leave, claim, round, over).a)
    ensures IsCleared(RegMove(a, LeaveUnsent, claim, round, over).a)
    ensures RegMove(a, Exit, claim, round, over).a == a.(doShutdown := false, isShutdown := true)
    ensures a.accountId == -1 ==> IsCleared(UnregMove(a, ClearRest, claim, over).a)
  {
  }

  lemma UnregistrationDecides(a: Acc, claim: nat, over: bool)
    ensures UnregMove(a, Poll, claim, over).next == if a.isShutdown || a.accountId == -1 then TestUsable else Poll
    ensures UnregMove(a, TestUsable, claim, over).next
            == if a.isRegistered && a.accountId != -1 then ResetArrived else UnregDone
    ensures UnregMove(a, SendUnreg, claim, over).next == if over then AwaitUnreg else UnregDone
    ensures UnregMove(a, AwaitUnreg, claim, over).next
            == if a.eventArrived || over then ClearUnregArrived else AwaitUnreg
    ensures UnregMove(a, Report, claim, over).next == if a.informGui && !over then UnregDone else ClearSlot
  {
  }

  /** What the threads write: each flag is reset before the next wait, and nothing else of the slot changes. */
  lemma RegistrationWrites(a: Acc, claim: nat, round: nat, over: bool)
    ensures RegMove(a, ClearArrived, claim, round, over).a == a.(eventArrived := false)
    ensures RegMove(a, ClearWaiting, claim, round, over).a == a.(waitingOnRegOk := false)
    ensures RegMove(a, MarkRefresh, claim, round, over).a == a.(waitingOnRefreshOk := true)
    ensures RegMove(a, ClearRefreshed, claim, round, over).a == a.(isRefreshed := false)
    ensures RegMove(a, ClearRefreshArrived, claim, round, over).a == a.(eventArrived := false)
    ensures RegMove(a, ClearRefreshWaiting, claim, round, over).a == a.(waitingOnRefreshOk := false)
  {
  }

  lemma UnregistrationWrites(a: Acc, claim: nat, over: bool)
    ensures UnregMove(a, ResetArrived, claim, over).a == a.(eventArrived := false)
    ensures UnregMove(a, MarkUnreg, claim, over).a == a.(waitingOnUnregOk := true)
    ensures UnregMove(a, ClearUnregArrived, claim, over).a == a.(eventArrived := false)
    ensures UnregMove(a, ClearUnregWaiting, claim, over).a == a.(waitingOnUnregOk := false)
    ensures UnregMove(a, ClearSlot, claim, over).a == a.(accountId := -1)
  {
  }

  // ---------------------------------------------------------------- before a slot is cleared

  /** From waiting for the answer on, an unregistration thread has sent its REGISTER. */
  predicate HasSent(t: Thread, log: seq<Event>) {
    t.Unregistering? && (Sent(t.upc) || t.upc in {Report, ClearSlot, ClearRest, ClearTail}) ==>
      UnregisterSent(t.claim, true) in log
  }

  predicate AllHaveSent(m: Manager) {
    forall i :: 0 <= i < |m.threads| ==> HasSent(m.threads[i], m.log)
  }

  lemma StepHasSent(m: Manager, a: Action)
    requires AllHaveSent(m) && Enabled(m, a)
    ensures AllHaveSent(Fire(m, a))
  {
    match a
    case RegStep(i, ok) => RegHasSent(m, i, ok);
    case UnregStep(i, ok) => UnregHasSent(m, i, ok);
    case StartRegistration(accountId, regId) => assert Fire(m, a) == Begin(m, accountId, regId);
    case _ =>
  }

  lemma RegHasSent(m: Manager, i: nat, ok: bool)
    requires AllHaveSent(m) && Enabled(m, RegStep(i, ok))
    ensures AllHaveSent(RegStepOf(m, i, ok))
  {
    var t := m.threads[i];
    var r := RegMove(m.accs[t.pos], t.pc, t.claim, t.round, ok);
    assert RegStepOf(m, i, ok) == RegMoved(m, i, r);
  }

  lemma UnregHasSent(m: Manager, i: nat, ok: bool)
    requires AllHaveSent(m) && Enabled(m, UnregStep(i, ok))
    ensures AllHaveSent(UnregStepOf(m, i, ok))
  {
    var t := m.threads[i];
    var r := UnregMove(m.accs[t.pos], t.upc, t.claim, ok);
    MoveHasSent(m.accs[t.pos], t, ok, m.log);
    assert UnregStepOf(m, i, ok) == UnregMoved(m, i, r);
  }

  lemma MoveHasSent(a: Acc, t: Thread, ok: bool, log: seq<Event>)
    requires UnregRunning(t) && HasSent(t, log)
    ensures var r := UnregMove(a, t.upc, t.claim, ok); HasSent(t.(upc := r.next), LogOf(log, r.entry))
  {
  }

  lemma {:induction false} RunHasSent(n: nat, actions: seq<Action>)
    ensures AllHaveSent(ExecuteAny(Boot(n), actions))
    decreases |actions|
  {
    if actions != [] {
      var before, a := actions[..|actions| - 1], actions[|actions| - 1];
      RunHasSent(n, before);
      var m := ExecuteAny(Boot(n), before);
      if Enabled(m, a) { StepHasSent(m, a); }
    }
  }

  /** In any interleaving, an unregistration thread clears its slot only after the REGISTER with expires 0 was sent. */
  lemma ClearedAfterUnregister(n: nat, actions: seq<Action>, i: nat, ok: bool)
    requires Enabled(ExecuteAny(Boot(n), actions), UnregStep(i, ok))
    ensures var m := ExecuteAny(Boot(n), actions);
            var t := m.threads[i];
            m.accs[t.pos].accountId != -1 && UnregStepOf(m, i, ok).accs[t.pos].accountId == -1 ==>
              UnregisterSent(t.claim, true) in m.log
  {
    RunHasSent(n, actions);
    var m := ExecuteAny(Boot(n), actions);
    Empties(m.accs[m.threads[i].pos], m.threads[i].upc, m.threads[i].claim, ok);
  }

  lemma Empties(a: Acc, pc: UnregPc, claim: nat, ok: bool)
    ensures a.accountId != -1 && UnregMove(a, pc, claim, ok).a.accountId == -1 ==> pc == ClearSlot
  {
    UnregKeepsIds(a, pc, claim, ok);
  }
}
