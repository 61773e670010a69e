/** What threads that have ended leave in the slots: flags in unused slots, and slots in use that nobody works for. */
module RegistrarLeftovers {
  import opened Options
  import opened Events
  import opened RegistrarSpec
  import opened RegistrarThreads
  import opened RegistrarSafety

  // ---------------------------------------------------------------- unused slots

  predicate Unused(a: Acc) {
    a.accountId == -1 && a.regId == -1
  }

  /** An event or a guard that had looked a slot up before it was cleared and goes on afterwards. */
  datatype Late = LateEvent(kind: SipType) | LateGuard

  /** What they make of a cleared slot. */
  function Left(lates: seq<Late>): Acc {
    if lates == [] then CLEARED
    else
      var a := Left(lates[..|lates| - 1]);
      match lates[|lates| - 1]
      case LateEvent(kind) => AfterEvent(a, kind)
      case LateGuard => a.(doShutdown := true)
  }

  /** A registration whose first REGISTER could not be sent clears the slot it was going to take. */
  predicate Resets(m: Manager, a: Action, p: nat) {
    a.StartRegistration? && a.regId == -1 && FindByAccount(m.accs, a.accountId) == -1 && FindEmpty(m.accs) == p
  }

  /** The late ones since slot p was cleared, after one more step. */
  function LatesAfter(m: Manager, a: Action, p: nat, lates: seq<Late>): seq<Late>
    requires Enabled(m, a) && p < |m.accs|
  {
    if !Unused(m.accs[p]) || Resets(m, a, p) then []
    else if a.FinishEvent? && m.holder.pos == p then lates + [LateEvent(m.holder.kind)]
    else if a.FinishGuard? && m.holder.pos == p then lates + [LateGuard]
    else lates
  }

  /** And over a run. */
  function Lates(n: nat, actions: seq<Action>, p: nat): seq<Late>
    decreases |actions|
  {
    if actions == [] then []
    else
      var before, a := actions[..|actions| - 1], actions[|actions| - 1];
      var m := Execute(Boot(n), before);
      if Enabled(m, a) && Strict(m, a) && p < |m.accs| then LatesAfter(m, a, p, Lates(n, before, p))
      else Lates(n, before, p)
  }

  /** Nothing but who is told about the registration. */
  predicate Alike(a: Acc, b: Acc) {
    a.(informGui := b.informGui) == b
  }

  lemma KeepsSize(m: Manager, a: Action)
    requires Enabled(m, a)
    ensures Shape(Fire(m, a)) && |Fire(m, a).accs| == |m.accs|
  {
  }

  lemma {:induction false} RunKeepsSize(n: nat, actions: seq<Action>)
    ensures Shape(Execute(Boot(n), actions)) && |Execute(Boot(n), actions).accs| == n
    decreases |actions|
  {
    if actions != [] {
      var before, a := actions[..|actions| - 1], actions[|actions| - 1];
      RunKeepsSize(n, before);
      if Enabled(Execute(Boot(n), before), a) { KeepsSize(Execute(Boot(n), before), a); }
    }
  }

  /** What a step makes of a slot that is unused afterwards. */
  predicate UnusedAfter(m: Manager, a: Action, p: nat)
    requires Enabled(m, a) && p < |m.accs|
  {
    var m' := Fire(m, a);
    p < |m'.accs| && (Unused(m'.accs[p]) ==>
      Alike(m'.accs[p],
            if !Unused(m.accs[p]) || Resets(m, a, p) then CLEARED
            else if a.FinishEvent? && m.holder.pos == p then AfterEvent(m.accs[p], m.holder.kind)
            else if a.FinishGuard? && m.holder.pos == p then m.accs[p].(doShutdown := true)
            else m.accs[p]))
  }

  lemma UnusedStep(m: Manager, a: Action, p: nat)
    requires Inv(m) && Enabled(m, a) && Strict(m, a) && p < |m.accs|
    ensures UnusedAfter(m, a, p)
  {
    match a
    case RegStep(i, ok) => RegLeaves(m, i, ok, p);
    case UnregStep(i, ok) => UnregLeaves(m, i, ok, p);
    case FinishGuard => GuardLeaves(m, p);
    case StartRegistration(accountId, regId) => ClaimLeaves(m, accountId, regId, p);
    case FinishEvent => EventLeaves(m, p);
    case MuteAll => MutesLeave(m, a, p);
    case MuteSlot(_) => MutesLeave(m, a, p);
    case _ => LookupsLeave(m, a, p);
  }

  lemma GuardLeaves(m: Manager, p: nat)
    requires Inv(m) && Enabled(m, FinishGuard) && p < |m.accs|
    ensures UnusedAfter(m, FinishGuard, p)
  {
    assert ViewOk(ViewOf(m, p), m.log);
  }

  lemma ClaimLeaves(m: Manager, accountId: int, regId: int, p: nat)
    requires Enabled(m, StartRegistration(accountId, regId)) && p < |m.accs|
    ensures UnusedAfter(m, StartRegistration(accountId, regId), p)
  {
    assert Fire(m, StartRegistration(accountId, regId)).accs == Register(m.accs, accountId, regId).0;
  }

  lemma EventLeaves(m: Manager, p: nat)
    requires Enabled(m, FinishEvent) && p < |m.accs|
    ensures UnusedAfter(m, FinishEvent, p)
  {
    EventKeepsIds(m.accs[m.holder.pos], m.holder.kind);
  }

  lemma LookupsLeave(m: Manager, a: Action, p: nat)
    requires Enabled(m, a) && p < |m.accs| && (a.StartUnregistration? || a.ReceiveEvent?)
    ensures UnusedAfter(m, a, p)
  {
    assert Fire(m, a).accs == m.accs;
  }

  lemma MutesLeave(m: Manager, a: Action, p: nat)
    requires Enabled(m, a) && p < |m.accs| && (a.MuteAll? || a.MuteSlot?)
    ensures UnusedAfter(m, a, p)
  {
    MutedAlike(m, a, p);
    assert !Resets(m, a, p);
  }

  lemma MutedAlike(m: Manager, a: Action, p: nat)
    requires Enabled(m, a) && p < |m.accs| && (a.MuteAll? || a.MuteSlot?)
    ensures p < |Fire(m, a).accs| && Alike(Fire(m, a).accs[p], m.accs[p])
  {
    if a.MuteAll? {
      assert Fire(m, a).accs == Muted(m.accs);
      MutedSlot(m.accs, p);
    } else {
      assert Fire(m, a).accs == m.accs[a.pos := m.accs[a.pos].(informGui := false)];
    }
  }

  lemma MutedSlot(accs: seq<Acc>, p: nat)
    requires p < |accs|
    ensures Alike(Muted(accs)[p], accs[p])
  {
  }

  lemma RegLeaves(m: Manager, i: nat, ok: bool, p: nat)
    requires Inv(m) && Enabled(m, RegStep(i, ok)) && p < |m.accs|
    ensures UnusedAfter(m, RegStep(i, ok), p)
  {
    var t := m.threads[i];
    RegSlotUsed(m, i);
    RegKeepsIds(m.accs[t.pos], t.pc, t.claim, t.round, ok);
  }

  /** What a running unregistration thread finds. */
  lemma UnregSlot(m: Manager, i: nat)
    requires Inv(m) && i < |m.threads| && UnregRunning(m.threads[i])
    ensures var t := m.threads[i];
            && t.pos < |m.accs| && m.closer[t.pos] == Some(i) && t.upc != ClearTail && t.upc != UnregDone
            && ViewOf(m, t.pos).unreg == Some(t.upc) && (t.upc != Poll ==> m.owner[t.pos] == None)
            && (t.upc == ClearRest ==> m.accs[t.pos].accountId == -1)
            && (m.accs[t.pos].regId == -1 ==> Unused(m.accs[t.pos]) && (t.upc == Poll || t.upc == TestUsable))
  {
    assert ViewOk(ViewOf(m, m.threads[i].pos), m.log);
  }

  lemma UnregLeaves(m: Manager, i: nat, ok: bool, p: nat)
    requires Inv(m) && Enabled(m, UnregStep(i, ok)) && p < |m.accs|
    ensures UnusedAfter(m, UnregStep(i, ok), p)
  {
    var t := m.threads[i];
    UnregSlot(m, i);
    UnregEmpties(m.accs[t.pos], t.upc, t.claim, ok);
    var a := UnregMove(m.accs[t.pos], t.upc, t.claim, ok).a;
    assert Fire(m, UnregStep(i, ok)).accs == m.accs[t.pos := a];
  }

  /** An unregistration thread that still has to do with an unused slot only reads it. */
  lemma UnregEmpties(a: Acc, pc: UnregPc, claim: nat, ok: bool)
    requires pc != ClearTail && (pc == ClearRest ==> a.accountId == -1)
    requires a.regId == -1 ==> Unused(a) && (pc == Poll || pc == TestUsable)
    ensures var b := UnregMove(a, pc, claim, ok).a; Unused(b) ==> b == if Unused(a) then a else CLEARED
  {
  }

  /** On any run an unused slot is what the late events and guards since its last clearing have made of it. */
  lemma {:induction false} UnusedSlotIs(n: nat, actions: seq<Action>, p: nat)
    requires p < n && p < |Execute(Boot(n), actions).accs| && Unused(Execute(Boot(n), actions).accs[p])
    ensures Alike(Execute(Boot(n), actions).accs[p], Left(Lates(n, actions, p)))
    decreases |actions|
  {
    if actions != [] {
      var before, a := actions[..|actions| - 1], actions[|actions| - 1];
      var m := Execute(Boot(n), before);
      RunKeepsSize(n, before);
      if Unused(m.accs[p]) { UnusedSlotIs(n, before, p); }
      if Enabled(m, a) && Strict(m, a) {
        RunKeeps(n, before);
        UnusedStep(m, a, p);
        LeftNext(m, a, p, Lates(n, before, p));
      }
    }
  }

  lemma LeftNext(m: Manager, a: Action, p: nat, lates: seq<Late>)
    requires Enabled(m, a) && p < |m.accs| && UnusedAfter(m, a, p) && Unused(Fire(m, a).accs[p])
    requires Unused(m.accs[p]) ==> Alike(m.accs[p], Left(lates))
    ensures Alike(Fire(m, a).accs[p], Left(LatesAfter(m, a, p, lates)))
  {
    var late := if a.FinishEvent? then LateEvent(m.holder.kind) else LateGuard;
    assert (lates + [late])[..|lates|] == lates;
  }

  lemma {:induction false} LeftFlags(lates: seq<Late>)
    ensures Left(lates).eventArrived <==> exists k :: 0 <= k < |lates| && lates[k].LateEvent?
    ensures Left(lates).doShutdown <==> LateGuard in lates
    decreases |lates|
  {
    if lates != [] {
      var rest, last := lates[..|lates| - 1], lates[|lates| - 1];
      LeftFlags(rest);
      assert lates == rest + [last];
      if last.LateEvent? {
        assert lates[|lates| - 1].LateEvent?;
      } else if Left(rest).eventArrived {
        var k :| 0 <= k < |rest| && rest[k].LateEvent?;
        assert lates[k].LateEvent?;
      }
    }
  }

  /**
   So an unused slot has eventArrived set exactly if a late event came, doShutdown exactly if a late guard did,
   and is as clear_account_info leaves it exactly if neither did.
   */
  lemma UnusedSlotCleanIff(n: nat, actions: seq<Action>, p: nat)
    requires p < n && p < |Execute(Boot(n), actions).accs| && Unused(Execute(Boot(n), actions).accs[p])
    ensures var a, lates := Execute(Boot(n), actions).accs[p], Lates(n, actions, p);
            && (a.eventArrived <==> exists k :: 0 <= k < |lates| && lates[k].LateEvent?)
            && (a.doShutdown <==> LateGuard in lates)
            && (Alike(a, CLEARED) <==> lates == [])
  {
    UnusedSlotIs(n, actions, p);
    CleanIff(Execute(Boot(n), actions).accs[p], Lates(n, actions, p));
  }

  lemma CleanIff(a: Acc, lates: seq<Late>)
    requires Alike(a, Left(lates))
    ensures a.eventArrived <==> exists k :: 0 <= k < |lates| && lates[k].LateEvent?
    ensures a.doShutdown <==> LateGuard in lates
    ensures Alike(a, CLEARED) <==> lates == []
  {
    LeftFlags(lates);
    if lates != [] { assert lates[0].LateEvent? || lates[0] == LateGuard; }
  }

  /**
   One step at a time: a slot becomes unclean exactly by an event or a guard that finishes at it while it is
   unused.
   */
  lemma BecomesUncleanIff(n: nat, actions: seq<Action>, a: Action, p: nat)
    requires var m := Execute(Boot(n), actions);
             Enabled(m, a) && Strict(m, a) && p < |m.accs| && (Unused(m.accs[p]) ==> Alike(m.accs[p], CLEARED))
    ensures var m := Execute(Boot(n), actions);
            var m' := Fire(m, a);
            && p < |m'.accs|
            && (Unused(m'.accs[p]) ==>
                  (!Alike(m'.accs[p], CLEARED)
                   <==> Unused(m.accs[p]) && (a.FinishEvent? || a.FinishGuard?) && m.holder.pos == p))
  {
    RunKeeps(n, actions);
    UnusedStep(Execute(Boot(n), actions), a, p);
  }

  // ---------------------------------------------------------------- a claim of an unclean slot

  /** A step claims slot p. */
  predicate ClaimsSlot(m: Manager, a: Action, p: nat) {
    a.StartRegistration? && a.regId != -1 && FindByAccount(m.accs, a.accountId) == -1 && FindEmpty(m.accs) == p
  }

  /**
   A new claim begins with eventArrived set, so that its wait ends at once, exactly if a late event was left in the
   slot, and with doShutdown set exactly if a late guard was.
   */
  lemma ClaimInheritsIff(n: nat, actions: seq<Action>, a: Action, p: nat)
    requires var m := Execute(Boot(n), actions); Enabled(m, a) && Strict(m, a) && p < |m.accs| && ClaimsSlot(m, a, p)
    ensures var m', lates := Fire(Execute(Boot(n), actions), a), Lates(n, actions, p);
            && p < |m'.accs| && m'.accs[p].accountId == a.accountId
            && (m'.accs[p].eventArrived <==> exists k :: 0 <= k < |lates| && lates[k].LateEvent?)
            && (m'.accs[p].doShutdown <==> LateGuard in lates)
  {
    var m := Execute(Boot(n), actions);
    RunKeeps(n, actions);
    RunKeepsSize(n, actions);
    ClaimKeepsRest(m, a, p);
    UnusedSlotCleanIff(n, actions, p);
  }

  lemma ClaimKeepsRest(m: Manager, a: Action, p: nat)
    requires Inv(m) && Enabled(m, a) && p < |m.accs| && ClaimsSlot(m, a, p) && Strict(m, a)
    ensures var m' := Fire(m, a);
            && p < |m'.accs| && m'.accs[p].accountId == a.accountId && Unused(m.accs[p])
            && m'.accs[p].eventArrived == m.accs[p].eventArrived && m'.accs[p].doShutdown == m.accs[p].doShutdown
  {
    assert ViewOk(ViewOf(m, p), m.log);
  }

  /** What was left in slot p when it was claimed last. */
  function Inherited(n: nat, actions: seq<Action>, p: nat): seq<Late>
    decreases |actions|
  {
    if actions == [] then []
    else
      var before, a := actions[..|actions| - 1], actions[|actions| - 1];
      var m := Execute(Boot(n), before);
      if Enabled(m, a) && Strict(m, a) && ClaimsSlot(m, a, p) then Lates(n, before, p) else Inherited(n, before, p)
  }

  /** Its registration thread will stop although no unregistration thread waits for it. */
  predicate StopsUnasked(m: Manager, p: nat)
    requires Shape(m) && p < |m.accs|
  {
    m.owner[p].Some? && m.accs[p].doShutdown && m.closer[p] == None
  }

  lemma ClaimTakesOver(m: Manager, a: Action, p: nat)
    requires Inv(m) && Enabled(m, a) && Strict(m, a) && p < |m.accs| && ClaimsSlot(m, a, p)
    ensures var m' := Fire(m, a);
            && Shape(m') && p < |m'.accs| && Unused(m.accs[p])
            && (StopsUnasked(m', p) <==> m.accs[p].doShutdown)
  {
    assert ViewOk(ViewOf(m, p), m.log);
  }

  /** While its thread is there, a slot stays one that stops unasked or stays another. */
  predicate AskedAsBefore(m: Manager, m': Manager, p: nat)
    requires Shape(m) && p < |m.accs|
  {
    && Shape(m') && p < |m'.accs|
    && (m'.owner[p].Some? ==> m.owner[p].Some? && (StopsUnasked(m', p) <==> StopsUnasked(m, p)))
  }

  lemma StopsUnaskedKept(m: Manager, a: Action, p: nat)
    requires Inv(m) && Enabled(m, a) && Strict(m, a) && p < |m.accs| && !ClaimsSlot(m, a, p)
    ensures AskedAsBefore(m, Fire(m, a), p)
  {
    match a
    case RegStep(i, ok) => RegAsBefore(m, i, ok, p);
    case UnregStep(i, ok) => UnregAsBefore(m, i, ok, p);
    case FinishGuard => GuardAsBefore(m, p);
    case FinishEvent =>
      assert Fire(m, a) == BookEvent(m, m.holder.pos, m.holder.kind);
    case StartRegistration(accountId, regId) => ClaimAsBefore(m, accountId, regId, p);
    case _ => OthersAsBefore(m, a, p);
  }

  lemma RegAsBefore(m: Manager, i: nat, ok: bool, p: nat)
    requires Inv(m) && Enabled(m, RegStep(i, ok)) && p < |m.accs|
    ensures AskedAsBefore(m, RegStepOf(m, i, ok), p)
  {
    var t := m.threads[i];
    RegSlotUsed(m, i);
    RegKeepsStop(m.accs[t.pos], t.pc, t.claim, t.round, ok);
  }

  lemma RegKeepsStop(a: Acc, pc: RegPc, claim: nat, round: nat, ok: bool)
    ensures var r := RegMove(a, pc, claim, round, ok); r.next != RegDone ==> r.a.doShutdown == a.doShutdown
  {
  }

  lemma UnregAsBefore(m: Manager, i: nat, ok: bool, p: nat)
    requires Inv(m) && Enabled(m, UnregStep(i, ok)) && p < |m.accs|
    ensures AskedAsBefore(m, UnregStepOf(m, i, ok), p)
  {
    var t := m.threads[i];
    assert ViewOk(ViewOf(m, t.pos), m.log);
    assert m.owner[t.pos].Some? ==> t.upc == Poll && !m.accs[t.pos].isShutdown && m.accs[t.pos].accountId != -1;
  }

  lemma GuardAsBefore(m: Manager, p: nat)
    requires Inv(m) && Enabled(m, FinishGuard) && p < |m.accs|
    ensures AskedAsBefore(m, PassGuard(m, m.holder.accountId, m.holder.pos), p)
  {
  }

  lemma ClaimAsBefore(m: Manager, accountId: int, regId: int, p: nat)
    requires Inv(m) && p < |m.accs| && !ClaimsSlot(m, StartRegistration(accountId, regId), p)
    ensures AskedAsBefore(m, Begin(m, accountId, regId), p)
  {
    if FindEmpty(m.accs) == p { FreeSlotUnowned(m, p); }
  }

  lemma OthersAsBefore(m: Manager, a: Action, p: nat)
    requires Enabled(m, a) && p < |m.accs|
    requires a.StartUnregistration? || a.ReceiveEvent? || a.MuteAll? || a.MuteSlot?
    ensures AskedAsBefore(m, Fire(m, a), p)
  {
  }

  /**
   On any run a registration thread is told to stop with no unregistration thread waiting for it exactly if a late
   guard had marked the slot before it was claimed.
   */
  lemma {:induction false} StopsUnaskedIff(n: nat, actions: seq<Action>, p: nat)
    requires p < n && Shape(Execute(Boot(n), actions)) && p < |Execute(Boot(n), actions).accs|
    requires Execute(Boot(n), actions).owner[p].Some?
    ensures StopsUnasked(Execute(Boot(n), actions), p) <==> LateGuard in Inherited(n, actions, p)
    decreases |actions|
  {
    if actions != [] {
      var before, a := actions[..|actions| - 1], actions[|actions| - 1];
      var m := Execute(Boot(n), before);
      RunKeepsSize(n, before);
      RunKeeps(n, before);
      if Enabled(m, a) && Strict(m, a) {
        if ClaimsSlot(m, a, p) {
          ClaimTakesOver(m, a, p);
          UnusedSlotCleanIff(n, before, p);
        } else {
          StopsUnaskedKept(m, a, p);
          if m.owner[p].Some? { StopsUnaskedIff(n, before, p); }
        }
      } else {
        StopsUnaskedIff(n, before, p);
      }
    }
  }

  // ---------------------------------------------------------------- slots in use that nobody works for

  predicate Abandoned(m: Manager, p: nat)
    requires Shape(m) && p < |m.accs|
  {
    m.accs[p].accountId != -1 && m.owner[p] == None && m.closer[p] == None
  }

  /**
   The steps that abandon a slot: the REGISTER with expires 0 could not be sent, the GUI could not be told, the
   account was not registered any more, or the registration thread was stopped by nobody.
   */
  predicate Abandons(m: Manager, a: Action, p: nat)
    requires Enabled(m, a) && p < |m.accs|
  {
    match a
    case UnregStep(i, ok) =>
      var t := m.threads[i];
      && t.pos == p
      && ((t.upc == SendUnreg && !ok) || (t.upc == Report && !ok && m.accs[p].informGui)
          || (t.upc == TestUsable && m.accs[p].accountId != -1 && !m.accs[p].isRegistered))
    case RegStep(i, ok) => m.threads[i].pos == p && m.threads[i].pc == Exit && m.closer[p] == None
    case _ => false
  }

  predicate AbandonedAfter(m: Manager, a: Action, p: nat)
    requires Enabled(m, a) && p < |m.accs|
  {
    var m' := Fire(m, a);
    && Shape(m') && p < |m'.accs|
    && (if Abandoned(m, p) then Abandoned(m', p) && m'.accs[p].accountId == m.accs[p].accountId
        else Abandoned(m', p) <==> Abandons(m, a, p))
  }

  lemma AbandonedStep(m: Manager, a: Action, p: nat)
    requires Inv(m) && Enabled(m, a) && Strict(m, a) && p < |m.accs|
    ensures AbandonedAfter(m, a, p)
  {
    match a
    case RegStep(i, ok) => RegAbandons(m, i, ok, p);
    case UnregStep(i, ok) => UnregAbandons(m, i, ok, p);
    case FinishGuard => GuardAbandons(m, p);
    case StartRegistration(accountId, regId) => ClaimAbandons(m, accountId, regId, p);
    case FinishEvent => EventAbandons(m, p);
    case _ => OthersAbandon(m, a, p);
  }

  lemma RegAbandons(m: Manager, i: nat, ok: bool, p: nat)
    requires Inv(m) && Enabled(m, RegStep(i, ok)) && p < |m.accs|
    ensures AbandonedAfter(m, RegStep(i, ok), p)
  {
    var t := m.threads[i];
    RegSlotUsed(m, i);
    assert m.owner[t.pos] == Some(i);
    RegEnds(m.accs[t.pos], t.pc, t.claim, t.round, ok);
    RegMovedAbandons(m, i, RegMove(m.accs[t.pos], t.pc, t.claim, t.round, ok), p);
  }

  lemma RegMovedAbandons(m: Manager, i: nat, r: Move<RegPc>, p: nat)
    requires Shape(m) && p < |m.accs| && i < |m.threads| && m.threads[i].Registering?
    requires m.threads[i].pos < |m.accs| && m.owner[m.threads[i].pos].Some?
    ensures var m' := RegMoved(m, i, r);
            && Shape(m') && p < |m'.accs|
            && if p == m.threads[i].pos
               then Abandoned(m', p) <==> r.next == RegDone && r.a.accountId != -1 && m.closer[p] == None
               else m'.accs[p] == m.accs[p] && (Abandoned(m', p) <==> Abandoned(m, p))
  {
  }

  lemma RegEnds(a: Acc, pc: RegPc, claim: nat, round: nat, ok: bool)
    requires pc != ExitHalfway && pc != RegDone
    ensures var r := RegMove(a, pc, claim, round, ok);
            && (r.next == RegDone <==> pc == Leave || pc == LeaveUnsent || pc == Exit)
            && r.a.accountId == if pc == Leave || pc == LeaveUnsent then -1 else a.accountId
  {
  }

  lemma UnregAbandons(m: Manager, i: nat, ok: bool, p: nat)
    requires Inv(m) && Enabled(m, UnregStep(i, ok)) && p < |m.accs|
    ensures AbandonedAfter(m, UnregStep(i, ok), p)
  {
    var t := m.threads[i];
    UnregSlot(m, i);
    UnregEnds(m.accs[t.pos], t.upc, t.claim, ok);
    UnregMovedAbandons(m, i, UnregMove(m.accs[t.pos], t.upc, t.claim, ok), p);
  }

  lemma UnregMovedAbandons(m: Manager, i: nat, r: Move<UnregPc>, p: nat)
    requires Shape(m) && p < |m.accs| && i < |m.threads| && m.threads[i].Unregistering?
    requires m.threads[i].pos < |m.accs| && m.closer[m.threads[i].pos].Some?
    ensures var m' := UnregMoved(m, i, r);
            && Shape(m') && p < |m'.accs|
            && if p == m.threads[i].pos
               then Abandoned(m', p) <==> r.next == UnregDone && r.a.accountId != -1 && m.owner[p] == None
               else m'.accs[p] == m.accs[p] && (Abandoned(m', p) <==> Abandoned(m, p))
  {
  }

  lemma UnregEnds(a: Acc, pc: UnregPc, claim: nat, ok: bool)
    requires pc != ClearTail && pc != UnregDone
    ensures var r := UnregMove(a, pc, claim, ok);
            && (r.next == UnregDone <==>
                  || (pc == TestUsable && !(a.isRegistered && a.accountId != -1)) || (pc == SendUnreg && !ok)
                  || (pc == Report && a.informGui && !ok) || pc == ClearRest)
            && r.a.accountId == if pc == ClearSlot then -1 else a.accountId
  {
  }

  lemma GuardAbandons(m: Manager, p: nat)
    requires Inv(m) && Enabled(m, FinishGuard) && p < |m.accs|
    ensures AbandonedAfter(m, FinishGuard, p)
  {
    assert ViewOk(ViewOf(m, p), m.log);
  }

  lemma ClaimAbandons(m: Manager, accountId: int, regId: int, p: nat)
    requires Inv(m) && Enabled(m, StartRegistration(accountId, regId)) && p < |m.accs|
    ensures AbandonedAfter(m, StartRegistration(accountId, regId), p)
  {
  }

  lemma EventAbandons(m: Manager, p: nat)
    requires Enabled(m, FinishEvent) && p < |m.accs|
    ensures AbandonedAfter(m, FinishEvent, p)
  {
    EventKeepsIds(m.accs[m.holder.pos], m.holder.kind);
  }

  lemma OthersAbandon(m: Manager, a: Action, p: nat)
    requires Enabled(m, a) && p < |m.accs|
    requires a.StartUnregistration? || a.ReceiveEvent? || a.MuteAll? || a.MuteSlot?
    ensures AbandonedAfter(m, a, p)
  {
  }

  /** On any run, a step abandons a slot exactly in these cases. */
  lemma AbandonedIff(n: nat, actions: seq<Action>, a: Action, p: nat)
    requires var m := Execute(Boot(n), actions); Enabled(m, a) && Strict(m, a) && p < |m.accs| && !Abandoned(m, p)
    ensures var m := Execute(Boot(n), actions);
            Shape(Fire(m, a)) && p < |Fire(m, a).accs| && (Abandoned(Fire(m, a), p) <==> Abandons(m, a, p))
  {
    RunKeeps(n, actions);
    AbandonedStep(Execute(Boot(n), actions), a, p);
  }

  /** An abandoned slot is one for ever: its account can neither be registered nor unregistered again. */
  lemma {:induction false} AbandonedForever(m: Manager, actions: seq<Action>, p: nat)
    requires Inv(m) && p < |m.accs| && Abandoned(m, p)
    ensures var m', accountId := Execute(m, actions), m.accs[p].accountId;
            && Inv(m') && p < |m'.accs| && Abandoned(m', p) && m'.accs[p].accountId == accountId
            && (forall regId :: Register(m'.accs, accountId, regId) == (m'.accs, InUse))
            && RequestShutdown(m'.accs, accountId) == (m'.accs, -1)
    decreases |actions|
  {
    if actions != [] {
      var before, a := actions[..|actions| - 1], actions[|actions| - 1];
      AbandonedForever(m, before, p);
      var f := Execute(m, before);
      if Enabled(f, a) && Strict(f, a) {
        StepKeeps(f, a);
        AbandonedStep(f, a, p);
      }
    }
    Refused(Execute(m, actions), p);
  }

  lemma Refused(m: Manager, p: nat)
    requires Inv(m) && p < |m.accs| && Abandoned(m, p)
    ensures var accountId := m.accs[p].accountId;
            && (forall regId :: Register(m.accs, accountId, regId) == (m.accs, InUse))
            && RequestShutdown(m.accs, accountId) == (m.accs, -1)
  {
    assert ViewOk(ViewOf(m, p), m.log);
    assert FindByAccount(m.accs, m.accs[p].accountId) == p;
  }
}
