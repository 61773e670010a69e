/**
 What the threads of the registrar keep in any interleaving, with none of the hypotheses: slots never hold one
 account twice, and what each registration thread sends and reports has its order.
 */
module RegistrarOrder {
  import opened Options
  import opened Events
  import opened RegistrarSpec
  import opened RegistrarThreads
  import opened RegistrarSafety

  /** Any interleaving of all actions, those included that the hypotheses exclude. */
  function ExecuteAny(m: Manager, actions: seq<Action>): Manager
    decreases |actions|
  {
    if actions == [] then m
    else
      var before, a := ExecuteAny(m, actions[..|actions| - 1]), actions[|actions| - 1];
      if Enabled(before, a) then Fire(before, a) else before
  }

  /** What only a registration thread logs. */
  predicate IsRegistering(e: Event) {
    e.InitialSent? || e.ToldRegistered? || e.RefreshSent?
  }

  /** Each claim is begun once, reported at most once, and refreshed in numbered order after that. */
  predicate InOrder(h: seq<Event>, e: Event) {
    match e
    case InitialSent(c) => forall x :: x in h && IsRegistering(x) ==> x.claim != c
    case ToldRegistered(c) => InitialSent(c) in h && ToldRegistered(c) !in h
    case RefreshSent(c, n, _) => InitialSent(c) in h && ToldRegistered(c) in h && n == RefreshesTried(h, c) + 1
    case _ => true
  }

  ghost predicate AllInOrder(log: seq<Event>) {
    forall i :: 0 <= i < |log| ==> InOrder(log[..i], log[i])
  }

  predicate BeforeTold(pc: RegPc) {
    FirstWait(pc) || pc == TestRegistered || pc == TellGui
  }

  predicate AfterTold(pc: RegPc) {
    Refreshing(pc) || pc == TestShutdown || pc == MarkRefresh || pc == Exit || pc == ExitHalfway
  }

  /** Where a registration thread is in the log. */
  predicate InStep(t: Thread, log: seq<Event>)
    requires t.Registering?
  {
    && InitialSent(t.claim) in log
    && (BeforeTold(t.pc) ==> ToldRegistered(t.claim) !in log && t.round == 0)
    && (AfterTold(t.pc) ==> ToldRegistered(t.claim) in log)
    && (t.pc == SendRefresh ==> t.round > 0)
    && (RegRunning(t) ==> RefreshesTried(log, t.claim) == if t.pc == SendRefresh then t.round - 1 else t.round)
  }

  predicate AccountsDistinct(accs: seq<Acc>) {
    forall p, q :: 0 <= p < q < |accs| && accs[p].accountId != -1 ==> accs[p].accountId != accs[q].accountId
  }

  ghost predicate Ordered(m: Manager) {
    && Shape(m) && AllInOrder(m.log)
    && AccountsDistinct(m.accs)
    && (forall i :: 0 <= i < |m.threads| && m.threads[i].Registering? ==>
          m.threads[i].claim < m.nextClaim && InStep(m.threads[i], m.log))
    && (forall i, j :: 0 <= i < j < |m.threads| && m.threads[i].Registering? && m.threads[j].Registering? ==>
          m.threads[i].claim != m.threads[j].claim)
    && (forall e :: e in m.log && IsRegistering(e) ==> e.claim < m.nextClaim)
  }

  lemma OrderExtends(log: seq<Event>, e: Event)
    requires AllInOrder(log) && InOrder(log, e)
    ensures AllInOrder(log + [e])
  {
    forall i | 0 <= i < |log + [e]|
      ensures InOrder((log + [e])[..i], (log + [e])[i])
    {
      assert (log + [e])[..i] == log[..i];
      if i == |log| { assert log[..i] == log; }
    }
  }

  /** Entries about other claims, and those that other threads log, do not matter to a thread. */
  lemma InStepKept(t: Thread, log: seq<Event>, e: Event)
    requires t.Registering? && InStep(t, log) && (!IsRegistering(e) || e.claim != t.claim)
    ensures InStep(t, log + [e])
  {
    LogExtends(log, e, t.claim);
  }

  /** The accounts in the slots stay or go. */
  predicate AccountsStayOrGo(accs: seq<Acc>, accs': seq<Acc>) {
    |accs'| == |accs| && forall p :: 0 <= p < |accs| ==> accs'[p].accountId in {accs[p].accountId, -1}
  }

  lemma StillDistinct(accs: seq<Acc>, accs': seq<Acc>)
    requires AccountsDistinct(accs) && AccountsStayOrGo(accs, accs')
    ensures AccountsDistinct(accs')
  {
  }

  /** A step in which no registration thread moves. */
  ghost predicate Aside(m: Manager, m': Manager, entry: Option<Event>) {
    && Shape(m') && m'.log == LogOf(m.log, entry) && (entry.Some? ==> !IsRegistering(entry.value))
    && m'.nextClaim == m.nextClaim && AccountsStayOrGo(m.accs, m'.accs)
    && forall i :: 0 <= i < |m'.threads| && m'.threads[i].Registering? ==>
                     i < |m.threads| && m'.threads[i] == m.threads[i]
  }

  lemma AsideKeeps(m: Manager, m': Manager, entry: Option<Event>)
    requires Ordered(m) && Aside(m, m', entry)
    ensures Ordered(m')
  {
    StillDistinct(m.accs, m'.accs);
    if entry.Some? {
      OrderExtends(m.log, entry.value);
      forall i | 0 <= i < |m'.threads| && m'.threads[i].Registering?
        ensures InStep(m'.threads[i], m'.log)
      {
        InStepKept(m.threads[i], m.log, entry.value);
      }
    }
  }

  /** A registration thread moves. */
  lemma MoveKeeps(m: Manager, m': Manager, i: nat, t': Thread, entry: Option<Event>)
    requires Ordered(m) && i < |m.threads| && m.threads[i].Registering?
    requires t'.Registering? && t'.claim == m.threads[i].claim && InStep(t', m'.log)
    requires Shape(m') && m'.threads == m.threads[i := t'] && m'.nextClaim == m.nextClaim
    requires AccountsStayOrGo(m.accs, m'.accs) && m'.log == LogOf(m.log, entry)
    requires entry.Some? ==> InOrder(m.log, entry.value) && entry.value.claim == t'.claim
    ensures Ordered(m')
  {
    StillDistinct(m.accs, m'.accs);
    if entry.Some? { OrderExtends(m.log, entry.value); }
    forall j | 0 <= j < |m'.threads| && m'.threads[j].Registering?
      ensures InStep(m'.threads[j], m'.log)
    {
      if j != i && entry.Some? { InStepKept(m.threads[j], m.log, entry.value); }
    }
  }

  /** The thread itself, and what it logs. */
  lemma MovedInStep(t: Thread, a: Acc, ok: bool, log: seq<Event>)
    requires RegRunning(t) && InStep(t, log)
    ensures var r := RegMove(a, t.pc, t.claim, t.round, ok);
            && InStep(MovedThread(t, a, ok), LogOf(log, r.entry))
            && (r.entry.Some? ==> InOrder(log, r.entry.value) && r.entry.value.claim == t.claim)
  {
    if t.pc == TellGui {
      ToldInStep(t, a, ok, log);
    } else if t.pc == SendRefresh {
      SentInStep(t, a, ok, log);
    } else if t.pc == Leave || t.pc == LeaveUnsent {
      ClearedInStep(t, a, ok, log);
    } else {
      NothingLogged(a, t.pc, t.claim, t.round, ok);
      QuietInStep(t, a, ok, log);
    }
  }

  function MovedThread(t: Thread, a: Acc, ok: bool): Thread
    requires t.Registering?
  {
    var next := RegMove(a, t.pc, t.claim, t.round, ok).next;
    t.(pc := next, round := NextRound(t.round, next))
  }

  lemma QuietInStep(t: Thread, a: Acc, ok: bool, log: seq<Event>)
    requires RegRunning(t) && InStep(t, log) && !Logs(t.pc)
    ensures InStep(MovedThread(t, a, ok), log)
  {
    QuietPhases(t, a, ok);
  }

  lemma QuietPhases(t: Thread, a: Acc, ok: bool)
    requires RegRunning(t) && !Logs(t.pc)
    ensures var t' := MovedThread(t, a, ok);
            && t'.claim == t.claim && (BeforeTold(t'.pc) ==> BeforeTold(t.pc)) && (AfterTold(t'.pc) ==> AfterTold(t.pc))
            && t.pc != SendRefresh && t'.round == t.round + (if t'.pc == SendRefresh then 1 else 0)
            && (t'.pc == SendRefresh ==> !BeforeTold(t.pc))
  {
  }

  lemma ToldInStep(t: Thread, a: Acc, ok: bool, log: seq<Event>)
    requires RegRunning(t) && InStep(t, log) && t.pc == TellGui
    ensures var entry := RegMove(a, t.pc, t.claim, t.round, ok).entry;
            && InStep(MovedThread(t, a, ok), LogOf(log, entry))
            && (entry.Some? ==> InOrder(log, entry.value) && entry.value.claim == t.claim)
  {
    LogExtends(log, ToldRegistered(t.claim), t.claim);
  }

  lemma SentInStep(t: Thread, a: Acc, ok: bool, log: seq<Event>)
    requires RegRunning(t) && InStep(t, log) && t.pc == SendRefresh
    ensures var entry := RegMove(a, t.pc, t.claim, t.round, ok).entry;
            && InStep(MovedThread(t, a, ok), LogOf(log, entry))
            && entry.Some? && InOrder(log, entry.value) && entry.value.claim == t.claim
  {
    LogExtends(log, RefreshSent(t.claim, t.round, ok), t.claim);
  }

  lemma ClearedInStep(t: Thread, a: Acc, ok: bool, log: seq<Event>)
    requires RegRunning(t) && InStep(t, log) && (t.pc == Leave || t.pc == LeaveUnsent)
    ensures var entry := RegMove(a, t.pc, t.claim, t.round, ok).entry;
            && InStep(MovedThread(t, a, ok), LogOf(log, entry))
            && entry.Some? && InOrder(log, entry.value) && entry.value.claim == t.claim
  {
    LogExtends(log, Cleared(t.claim), t.claim);
  }

  lemma RegOrdered(m: Manager, i: nat, ok: bool)
    requires Ordered(m) && Enabled(m, RegStep(i, ok))
    ensures Ordered(RegStepOf(m, i, ok))
  {
    var t := m.threads[i];
    var r := RegMove(m.accs[t.pos], t.pc, t.claim, t.round, ok);
    MovedInStep(t, m.accs[t.pos], ok, m.log);
    RegKeepsIds(m.accs[t.pos], t.pc, t.claim, t.round, ok);
    RegMovedIs(m, i, r);
    MoveKeeps(m, RegMoved(m, i, r), i, MovedThread(t, m.accs[t.pos], ok), r.entry);
  }

  lemma RegMovedIs(m: Manager, i: nat, r: Move<RegPc>)
    requires Shape(m) && i < |m.threads| && m.threads[i].Registering? && m.threads[i].pos < |m.accs|
    requires r.a.accountId in {m.accs[m.threads[i].pos].accountId, -1}
    ensures var t, m' := m.threads[i], RegMoved(m, i, r);
            && Shape(m') && m'.threads == m.threads[i := t.(pc := r.next, round := NextRound(t.round, r.next))]
            && m'.nextClaim == m.nextClaim && m'.log == LogOf(m.log, r.entry) && AccountsStayOrGo(m.accs, m'.accs)
  {
  }

  lemma HalfExitOrdered(m: Manager, i: nat)
    requires Ordered(m) && Enabled(m, HalfExit(i))
    ensures Ordered(Fire(m, HalfExit(i)))
  {
    MoveKeeps(m, Fire(m, HalfExit(i)), i, m.threads[i].(pc := ExitHalfway), None);
  }

  lemma UnregOrdered(m: Manager, i: nat, ok: bool)
    requires Ordered(m) && Enabled(m, UnregStep(i, ok))
    ensures Ordered(UnregStepOf(m, i, ok))
  {
    var t := m.threads[i];
    var r := UnregMove(m.accs[t.pos], t.upc, t.claim, ok);
    UnregLogs(m.accs[t.pos], t.upc, t.claim, ok);
    UnregMovedAside(m, i, r);
    AsideKeeps(m, UnregMoved(m, i, r), r.entry);
  }

  lemma UnregLogs(a: Acc, pc: UnregPc, claim: nat, ok: bool)
    ensures var r := UnregMove(a, pc, claim, ok);
            (r.entry.Some? ==> !IsRegistering(r.entry.value)) && r.a.accountId in {a.accountId, -1}
  {
  }

  lemma UnregMovedAside(m: Manager, i: nat, r: Move<UnregPc>)
    requires Shape(m) && i < |m.threads| && m.threads[i].Unregistering? && m.threads[i].pos < |m.accs|
    requires r.a.accountId in {m.accs[m.threads[i].pos].accountId, -1}
    requires r.entry.Some? ==> !IsRegistering(r.entry.value)
    ensures Aside(m, UnregMoved(m, i, r), r.entry)
  {
  }

  lemma HalfClearOrdered(m: Manager, i: nat)
    requires Ordered(m) && Enabled(m, HalfClear(i))
    ensures Ordered(Fire(m, HalfClear(i)))
  {
    AsideKeeps(m, Fire(m, HalfClear(i)), None);
  }

  lemma BeginOrdered(m: Manager, accountId: int, regId: int)
    requires Ordered(m)
    ensures Ordered(Begin(m, accountId, regId))
  {
    var p := FindEmpty(m.accs);
    if FindByAccount(m.accs, accountId) == -1 && p != -1 && regId != -1 {
      ClaimOrdered(m, accountId, regId, p);
    } else {
      AsideKeeps(m, Begin(m, accountId, regId), None);
    }
  }

  lemma ClaimOrdered(m: Manager, accountId: int, regId: int, p: nat)
    requires Ordered(m) && p == FindEmpty(m.accs) && FindByAccount(m.accs, accountId) == -1 && regId != -1
    ensures Ordered(Begin(m, accountId, regId))
  {
    ClaimIs(m, accountId, regId, p);
    NewAccountDistinct(m.accs, accountId, p);
    var a := Begin(m, accountId, regId).accs[p];
    assert Begin(m, accountId, regId).accs == m.accs[p := a];
    NewThreadKeeps(m, Begin(m, accountId, regId), Registering(accountId, p, m.nextClaim, 0, AwaitOk));
  }

  lemma NewThreadKeeps(m: Manager, m': Manager, t: Thread)
    requires Ordered(m) && Shape(m') && AccountsDistinct(m'.accs)
    requires t.Registering? && t.claim == m.nextClaim && t.round == 0 && t.pc == AwaitOk
    requires m'.threads == m.threads + [t] && m'.nextClaim == m.nextClaim + 1
    requires m'.log == m.log + [InitialSent(m.nextClaim)]
    ensures Ordered(m')
  {
    OrderExtends(m.log, InitialSent(t.claim));
    NewThreadInStep(m.log, t.accountId, t.pos, t.claim);
    ThreadsAndOne(m.threads, t, m.log, t.claim);
  }

  lemma ClaimIs(m: Manager, accountId: int, regId: int, p: nat)
    requires Shape(m) && p == FindEmpty(m.accs) && FindByAccount(m.accs, accountId) == -1 && regId != -1
    ensures var m' := Begin(m, accountId, regId);
            && Shape(m') && m'.threads == m.threads + [Registering(accountId, p, m.nextClaim, 0, AwaitOk)]
            && m'.log == m.log + [InitialSent(m.nextClaim)] && m'.nextClaim == m.nextClaim + 1
            && |m'.accs| == |m.accs| && m'.accs[p].accountId == accountId
            && forall q :: 0 <= q < |m.accs| && q != p ==> m'.accs[q] == m.accs[q]
  {
  }

  lemma NewAccountDistinct(accs: seq<Acc>, accountId: int, p: nat)
    requires AccountsDistinct(accs) && p < |accs| && FindByAccount(accs, accountId) == -1
    ensures forall a: Acc :: a.accountId == accountId ==> AccountsDistinct(accs[p := a])
  {
  }

  lemma ThreadsAndOne(threads: seq<Thread>, t: Thread, log: seq<Event>, c: nat)
    requires t.Registering? && t.claim == c
    requires forall i :: 0 <= i < |threads| && threads[i].Registering? ==>
                           threads[i].claim < c && InStep(threads[i], log)
    ensures forall i :: 0 <= i < |threads| && threads[i].Registering? ==> InStep(threads[i], log + [InitialSent(c)])
  {
    forall i | 0 <= i < |threads| && threads[i].Registering?
      ensures InStep(threads[i], log + [InitialSent(c)])
    {
      InStepKept(threads[i], log, InitialSent(c));
    }
  }

  lemma NewThreadInStep(log: seq<Event>, accountId: int, p: nat, c: nat)
    requires forall e :: e in log && IsRegistering(e) ==> e.claim < c
    ensures InStep(Registering(accountId, p, c, 0, AwaitOk), log + [InitialSent(c)])
  {
    LogExtends(log, InitialSent(c), c);
    NoRefreshYet(log, c);
  }

  lemma {:induction false} NoRefreshYet(log: seq<Event>, c: nat)
    requires forall e :: e in log && IsRegistering(e) ==> e.claim < c
    ensures RefreshesTried(log, c) == 0
    decreases |log|
  {
    if log != [] { NoRefreshYet(log[..|log| - 1], c); }
  }

  /** Events, guards and muting. */
  lemma OthersOrdered(m: Manager, a: Action)
    requires Ordered(m) && Enabled(m, a)
    requires a.StartUnregistration? || a.FinishGuard? || a.ReceiveEvent? || a.FinishEvent? || a.MuteAll? || a.MuteSlot?
    ensures Ordered(Fire(m, a))
  {
    var p := if a.ReceiveEvent? then FindByRegId(m.accs, a.regId) else -1;
    AsideKeeps(m, Fire(m, a), if p != -1 && IsPositive(a.kind) then Some(Positive(m.claims[p])) else None);
  }

  lemma StepOrdered(m: Manager, a: Action)
    requires Ordered(m) && Enabled(m, a)
    ensures Ordered(Fire(m, a))
  {
    match a
    case StartRegistration(accountId, regId) => BeginOrdered(m, accountId, regId);
    case RegStep(i, ok) => RegOrdered(m, i, ok);
    case UnregStep(i, ok) => UnregOrdered(m, i, ok);
    case HalfExit(i) => HalfExitOrdered(m, i);
    case HalfClear(i) => HalfClearOrdered(m, i);
    case _ => OthersOrdered(m, a);
  }

  lemma {:induction false} AnyRunOrdered(n: nat, actions: seq<Action>)
    ensures Ordered(ExecuteAny(Boot(n), actions))
    decreases |actions|
  {
    if actions != [] {
      var before, a := actions[..|actions| - 1], actions[|actions| - 1];
      AnyRunOrdered(n, before);
      var m := ExecuteAny(Boot(n), before);
      if Enabled(m, a) { StepOrdered(m, a); }
    }
  }

  /** Two entries of a claim, the earlier one first. */
  predicate Precedes(x: Event, y: Event) {
    x.claim == y.claim ==>
      && (IsRegistering(x) ==> !y.InitialSent?)
      && !(x.ToldRegistered? && y.ToldRegistered?) && !(x.RefreshSent? && y.ToldRegistered?)
      && (x.RefreshSent? && y.RefreshSent? ==> x.round < y.round)
  }

  /**
   In any interleaving at all: no account is in two slots; for each claim the first REGISTER comes once and first,
   then at most one report of success, then refreshes with increasing numbers.
   */
  lemma OrderWithoutHypotheses(n: nat, actions: seq<Action>)
    ensures var m := ExecuteAny(Boot(n), actions);
            && AccountsDistinct(m.accs) && AllInOrder(m.log)
            && forall i, j :: 0 <= i < j < |m.log| ==> Precedes(m.log[i], m.log[j])
  {
    AnyRunOrdered(n, actions);
    var log := ExecuteAny(Boot(n), actions).log;
    forall i, j | 0 <= i < j < |log|
      ensures Precedes(log[i], log[j])
    {
      OrderedPair(log, i, j);
    }
  }

  lemma OrderedPair(log: seq<Event>, i: nat, j: nat)
    requires AllInOrder(log) && i < j < |log|
    ensures Precedes(log[i], log[j])
  {
    assert InOrder(log[..j], log[j]) && log[..j][i] == log[i];
    assert InOrder(log[..i], log[i]);
    if log[i].RefreshSent? && log[j].RefreshSent? && log[i].claim == log[j].claim { NumbersGrow(log, i, j); }
  }
}
