/**
 How far the guarantees of RegistrarSafety reach: what a late event or guard leaves, and runs without the
 hypotheses.
 */
module RegistrarLimits {
  import opened Options
  import opened Events
  import opened RegistrarSpec
  import opened RegistrarThreads
  import opened RegistrarSafety
  import opened RegistrarLeftovers

  // ---------------------------------------------------------------- which steps open a guard that should be shut

  /** A guard that has looked the slot up, or that does so now, lets another unregistration thread through. */
  predicate GuardOpen(m: Manager, p: nat)
    requires p < |m.accs|
  {
    && !m.accs[p].doShutdown && !m.accs[p].isShutdown
    && (m.accs[p].accountId != -1 || (m.holder.GuardAt? && m.holder.pos == p))
  }

  /**
   What the three hypotheses exclude, where it matters: the first of the two exit writes, a claim of a slot
   whose closer is still at work (unless a late guard has marked it), and a clear that stops after the write of
   isShutdown while a guard has looked the slot up.
   */
  predicate Breach(m: Manager, a: Action, p: nat)
    requires Enabled(m, a) && p < |m.accs|
  {
    match a
    case HalfExit(i) => m.threads[i].pos == p
    case StartRegistration(accountId, regId) =>
      && FindByAccount(m.accs, accountId) == -1 && FindEmpty(m.accs) == p && regId != -1
      && m.closer[p].Some? && !m.accs[p].doShutdown && !m.accs[p].isShutdown
    case HalfClear(i) => m.threads[i].pos == p && m.holder.GuardAt? && m.holder.pos == p
    case _ => false
  }

  lemma ShutWhileClosing(m: Manager, p: nat)
    requires Inv(m) && p < |m.accs| && m.closer[p].Some?
    ensures !GuardOpen(m, p)
  {
    assert ViewOk(ViewOf(m, p), m.log);
  }

  /**
   From any run, whatever step comes next, the guard of a slot that has an unregistration thread at work is open
   afterwards exactly if that step is a breach of one of the hypotheses at this slot.
   */
  lemma GuardOpensIff(n: nat, actions: seq<Action>, a: Action, p: nat)
    requires Enabled(Execute(Boot(n), actions), a) && p < |Execute(Boot(n), actions).accs|
    requires a.StartUnregistration? ==> a.accountId != -1
    ensures var m := Execute(Boot(n), actions);
            var m' := Fire(m, a);
            p < |m'.accs| == |m'.closer| && (m'.closer[p].Some? ==> (GuardOpen(m', p) <==> Breach(m, a, p)))
  {
    RunKeeps(n, actions);
    OneStepOpens(Execute(Boot(n), actions), a, p);
  }

  lemma OneStepOpens(m: Manager, a: Action, p: nat)
    requires Inv(m) && Enabled(m, a) && p < |m.accs| && (a.StartUnregistration? ==> a.accountId != -1)
    ensures var m' := Fire(m, a);
            p < |m'.accs| == |m'.closer| && (m'.closer[p].Some? ==> (GuardOpen(m', p) <==> Breach(m, a, p)))
  {
    var m' := Fire(m, a);
    if Strict(m, a) {
      StepKeeps(m, a);
      StrictIsNoBreach(m, a, p);
      KeepsSize(m, a);
      if m'.closer[p].Some? { ShutWhileClosing(m', p); }
    } else {
      if m.closer[p].Some? { ShutWhileClosing(m, p); }
      LooseOpens(m, a, p);
    }
  }

  /** A claim that respects H2 leaves its slot without a closer. */
  lemma StrictIsNoBreach(m: Manager, a: Action, p: nat)
    requires Enabled(m, a) && Strict(m, a) && p < |m.accs|
    ensures !Breach(m, a, p)
  {
  }

  lemma LooseOpens(m: Manager, a: Action, p: nat)
    requires Inv(m) && Enabled(m, a) && !Strict(m, a) && p < |m.accs| && (a.StartUnregistration? ==> a.accountId != -1)
    requires m.closer[p].Some? ==> !GuardOpen(m, p)
    ensures var m' := Fire(m, a);
            p < |m'.accs| == |m'.closer| && (m'.closer[p].Some? ==> (GuardOpen(m', p) <==> Breach(m, a, p)))
  {
    match a
    case HalfExit(i) => HalfExitOpens(m, i, p);
    case HalfClear(i) => HalfClearOpens(m, i, p);
    case StartRegistration(accountId, regId) => EarlyClaimOpens(m, accountId, regId, p);
    case ReceiveEvent(regId, kind) =>
  }

  lemma HalfExitOpens(m: Manager, i: nat, p: nat)
    requires Inv(m) && Enabled(m, HalfExit(i)) && p < |m.accs| && (m.closer[p].Some? ==> !GuardOpen(m, p))
    ensures var m' := Fire(m, HalfExit(i)); m'.closer[p].Some? ==> (GuardOpen(m', p) <==> m.threads[i].pos == p)
  {
    RegSlotUsed(m, i);
    assert ViewOk(ViewOf(m, m.threads[i].pos), m.log);
  }

  lemma HalfClearOpens(m: Manager, i: nat, p: nat)
    requires Inv(m) && Enabled(m, HalfClear(i)) && p < |m.accs| && (m.closer[p].Some? ==> !GuardOpen(m, p))
    ensures var m' := Fire(m, HalfClear(i));
            m'.closer[p].Some? ==> (GuardOpen(m', p) <==> Breach(m, HalfClear(i), p))
  {
    assert ViewOk(ViewOf(m, m.threads[i].pos), m.log);
  }

  lemma EarlyClaimOpens(m: Manager, accountId: int, regId: int, p: nat)
    requires Inv(m) && m.holder == Free && p < |m.accs| && (m.closer[p].Some? ==> !GuardOpen(m, p))
    ensures var m' := Begin(m, accountId, regId);
            && p < |m'.accs| == |m'.closer|
            && (m'.closer[p].Some? ==> (GuardOpen(m', p) <==> Breach(m, StartRegistration(accountId, regId), p)))
  {
  }

  // ---------------------------------------------------------------- unused slots

  /** An event lands in an unused slot exactly if it carries registration ID -1 or the slot is being cleared. */
  lemma EventHitsUnusedSlotIff(n: nat, actions: seq<Action>, regId: int)
    requires FindByRegId(Execute(Boot(n), actions).accs, regId) != -1
    ensures var m := Execute(Boot(n), actions);
            var p := FindByRegId(m.accs, regId);
            Shape(m) && (m.accs[p].accountId == -1 <==> regId == -1 || UnregPcOf(m, p) == Some(ClearRest))
  {
    RunKeeps(n, actions);
    var m := Execute(Boot(n), actions);
    assert ViewOk(ViewOf(m, FindByRegId(m.accs, regId)), m.log);
  }

  /**
   What an unused slot holds: it is being cleared, or its registration ID, the flag for a stopped thread and the
   waiting flags are as clear_account_info leaves them. The other fields may be left from a late event or guard.
   */
  lemma UnusedSlots(n: nat, actions: seq<Action>, p: nat)
    requires p < |Execute(Boot(n), actions).accs| && Execute(Boot(n), actions).accs[p].accountId == -1
    ensures var m := Execute(Boot(n), actions);
            Shape(m) && (UnregPcOf(m, p) != Some(ClearRest) ==> Swept(m.accs[p]) && RegPcOf(m, p) == None)
  {
    RunKeeps(n, actions);
    assert ViewOk(ViewOf(Execute(Boot(n), actions), p), Execute(Boot(n), actions).log);
  }

  // ---------------------------------------------------------------- runs

  /** Actions that need not meet the hypotheses: at any time, or only while no unregistration thread is polling. */
  datatype Loose = Loose(actions: set<Action>, always: bool)

  const NONE := Loose({}, false)

  predicate Polling(m: Manager) {
    exists t :: t in m.threads && t.Unregistering? && (t.upc == Poll || t.upc == TestUsable)
  }

  predicate MayFire(m: Manager, a: Action, loose: Loose) {
    Strict(m, a) || (a in loose.actions && (loose.always || !Polling(m)))
  }

  /** A run from a fresh table of one slot whose actions meet the hypotheses but for those in `loose`. */
  ghost predicate IsRun(states: seq<Manager>, actions: seq<Action>, loose: Loose) {
    && |states| == |actions| + 1
    && states[0] == Boot(1)
    && forall k :: 0 <= k < |actions| ==>
                     && Enabled(states[k], actions[k]) && states[k + 1] == Fire(states[k], actions[k])
                     && MayFire(states[k], actions[k], loose)
  }

  /** A run is extended by one enabled action. */
  lemma Extend(states: seq<Manager>, actions: seq<Action>, loose: Loose, a: Action, m: Manager)
    returns (states': seq<Manager>, actions': seq<Action>)
    requires IsRun(states, actions, loose) && Enabled(states[|actions|], a) && m == Fire(states[|actions|], a)
    requires MayFire(states[|actions|], a, loose)
    ensures IsRun(states', actions', loose) && |actions'| == |actions| + 1 && states'[|actions'|] == m
    ensures states'[|actions|] == states[|actions|] && actions'[|actions|] == a
  {
    states', actions' := states + [m], actions + [a];
  }

  /** Two unregistration threads past the guard on one slot. */
  predicate TwoClosers(m: Manager) {
    exists i, j :: 0 <= i < j < |m.threads| && UnregRunning(m.threads[i]) && UnregRunning(m.threads[j]) &&
                   m.threads[i].pos == m.threads[j].pos
  }

  function Registration(pc: RegPc): Thread {
    Registering(5, 0, 0, 0, pc)
  }

  function Closer(pc: UnregPc): Thread {
    Unregistering(5, 0, 0, pc)
  }

  function Claimed7(a: Acc): Acc {
    a.(accountId := 5, regId := 7, waitingOnRegOk := true)
  }

  const REGISTERED := Claimed7(CLEARED).(isRegistered := true, waitingOnRegOk := false)
  const TOLD := [InitialSent(0), Positive(0), ToldRegistered(0)]
  const UNREGISTERED := TOLD + [UnregisterSent(0, true)]

  function One(a: Acc, threads: seq<Thread>, holder: Holder, claim: nat, owner: Option<nat>, closer: Option<nat>,
               next: nat, log: seq<Event>): Manager {
    Manager([a], threads, holder, [claim], [owner], [closer], next, log)
  }

  /** Only the registration thread is at work. */
  function Owned(a: Acc, pc: RegPc, holder: Holder, log: seq<Event>): Manager {
    One(a, [Registration(pc)], holder, 0, Some(0), None, 1, log)
  }

  /** It has been asked to stop. */
  function Stopping(a: Acc, pc: RegPc, log: seq<Event>): Manager {
    One(a, [Registration(pc), Closer(Poll)], Free, 0, Some(0), Some(1), 1, log)
  }

  /** It has ended, and the unregistration thread goes on. */
  function Closing(a: Acc, pc: UnregPc, holder: Holder, log: seq<Event>): Manager {
    One(a, [Registration(RegDone), Closer(pc)], holder, 0, None, Some(1), 1, log)
  }

  /** An account has been claimed and its first REGISTER sent. */
  lemma ClaimedRun(loose: Loose) returns (states: seq<Manager>, actions: seq<Action>)
    ensures IsRun(states, actions, loose)
    ensures states[|actions|] == Owned(Claimed7(CLEARED), AwaitOk, Free, [InitialSent(0)])
  {
    states, actions := [Boot(1)], [];
    states, actions := Extend(states, actions, loose, StartRegistration(5, 7),
                              Owned(Claimed7(CLEARED), AwaitOk, Free, [InitialSent(0)]));
  }

  /** Its positive event has been booked. */
  lemma AnsweredRun(loose: Loose) returns (states: seq<Manager>, actions: seq<Action>)
    ensures IsRun(states, actions, loose)
    ensures states[|actions|] == Owned(Claimed7(CLEARED).(isRegistered := true, eventArrived := true), AwaitOk, Free,
                                       [InitialSent(0), Positive(0)])
  {
    states, actions := ClaimedRun(loose);
    var log := [InitialSent(0), Positive(0)];
    states, actions := Extend(states, actions, loose, ReceiveEvent(7, RegistrationSuccess),
                              Owned(Claimed7(CLEARED), AwaitOk, EventAt(0, RegistrationSuccess), log));
    states, actions := Extend(states, actions, loose, FinishEvent,
                              Owned(Claimed7(CLEARED).(isRegistered := true, eventArrived := true), AwaitOk, Free,
                                    log));
  }

  lemma SeenRun(loose: Loose) returns (states: seq<Manager>, actions: seq<Action>)
    ensures IsRun(states, actions, loose)
    ensures states[|actions|] == Owned(REGISTERED, TestRegistered, Free, [InitialSent(0), Positive(0)])
  {
    states, actions := AnsweredRun(loose);
    var log := [InitialSent(0), Positive(0)];
    var a := Claimed7(CLEARED).(isRegistered := true);
    states, actions := Extend(states, actions, loose, RegStep(0, false),
                              Owned(a.(eventArrived := true), ClearArrived, Free, log));
    states, actions := Extend(states, actions, loose, RegStep(0, false), Owned(a, ClearWaiting, Free, log));
    states, actions := Extend(states, actions, loose, RegStep(0, false), Owned(REGISTERED, TestRegistered, Free, log));
  }

  /** A registered account whose registration thread polls for the stop flag. */
  lemma RegisteredRun(loose: Loose) returns (states: seq<Manager>, actions: seq<Action>)
    ensures IsRun(states, actions, loose)
    ensures states[|actions|] == Owned(REGISTERED, TestShutdown, Free, TOLD)
  {
    states, actions := SeenRun(loose);
    var log := [InitialSent(0), Positive(0)];
    states, actions := Extend(states, actions, loose, RegStep(0, false), Owned(REGISTERED, TellGui, Free, log));
    states, actions := Extend(states, actions, loose, RegStep(0, true), Owned(REGISTERED, TestShutdown, Free, TOLD));
  }

  // ---------------------------------------------------------------- an event in the window before sending

  /** A thread that has announced its first refresh. */
  function Refreshing1(pc: RegPc): Thread {
    Registering(5, 0, 0, 1, pc)
  }

  lemma AnnouncedRun() returns (states: seq<Manager>, actions: seq<Action>)
    ensures IsRun(states, actions, NONE)
    ensures states[|actions|] == One(REGISTERED.(waitingOnRefreshOk := true), [Refreshing1(SendRefresh)], Free, 0,
                                     Some(0), None, 1, TOLD)
  {
    states, actions := RegisteredRun(NONE);
    states, actions := Extend(states, actions, NONE, RegStep(0, true), Owned(REGISTERED, MarkRefresh, Free, TOLD));
    states, actions := Extend(states, actions, NONE, RegStep(0, true),
                              One(REGISTERED.(waitingOnRefreshOk := true), [Refreshing1(SendRefresh)], Free, 0, Some(0),
                                  None, 1, TOLD));
  }

  /**
   A success that arrives between the setting of waitingOnRefreshOK and the sending of the refresh is booked for
   that refresh, although the first REGISTER is the only one sent.
   */
  lemma BookedForUnsentRefresh() returns (states: seq<Manager>, actions: seq<Action>)
    ensures IsRun(states, actions, NONE) && |actions| > 0 && actions[|actions| - 1] == FinishEvent
    ensures var m, m' := states[|actions| - 1], states[|actions|];
            && m.holder == EventAt(0, RegistrationSuccess) && Shape(m)
            && LastSent(m.log, 0) == Some(InitialSent(0)) && Announced(m, 0) == Some(RefreshSent(0, 1, true))
            && m'.accs[0].isRefreshed
    ensures var a := REGISTERED.(waitingOnRefreshOk := true, isRefreshed := true, eventArrived := true);
            states[|actions|] == One(a, [Refreshing1(SendRefresh)], Free, 0, Some(0), None, 1, TOLD + [Positive(0)])
  {
    states, actions := AnnouncedRun();
    var a := REGISTERED.(waitingOnRefreshOk := true);
    var m := One(a, [Refreshing1(SendRefresh)], EventAt(0, RegistrationSuccess), 0, Some(0), None, 1,
                 TOLD + [Positive(0)]);
    states, actions := Extend(states, actions, NONE, ReceiveEvent(7, RegistrationSuccess), m);
    states, actions := Extend(states, actions, NONE, FinishEvent,
                              One(a.(isRefreshed := true, eventArrived := true), [Refreshing1(SendRefresh)], Free, 0,
                                  Some(0), None, 1, TOLD + [Positive(0)]));
    assert TOLD + [Positive(0)] == [InitialSent(0), Positive(0), ToldRegistered(0), Positive(0)];
    FirstStaysLast();
  }

  lemma FirstStaysLast()
    ensures LastSent(TOLD + [Positive(0)], 0) == Some(InitialSent(0))
  {
    LogExtends([], InitialSent(0), 0);
    LogExtends([InitialSent(0)], Positive(0), 0);
    LogExtends([InitialSent(0), Positive(0)], ToldRegistered(0), 0);
    LogExtends(TOLD, Positive(0), 0);
    assert [] + [InitialSent(0)] == [InitialSent(0)]
        && [InitialSent(0)] + [Positive(0)] == [InitialSent(0), Positive(0)];
    assert [InitialSent(0), Positive(0)] + [ToldRegistered(0)] == TOLD;
  }

  const BOOKED_EARLY := REGISTERED.(waitingOnRefreshOk := true, isRefreshed := true, eventArrived := true)

  /** The thread, at `pc`, after the refresh has been sent. */
  function SentAfterBooking(pc: RegPc): Manager {
    One(BOOKED_EARLY, [Refreshing1(pc)], Free, 0, Some(0), None, 1, TOLD + [Positive(0)] + [RefreshSent(0, 1, true)])
  }

  lemma SentRun() returns (states: seq<Manager>, actions: seq<Action>)
    ensures IsRun(states, actions, NONE) && states[|actions|] == SentAfterBooking(AwaitRefresh)
  {
    states, actions := BookedForUnsentRefresh();
    states, actions := Extend(states, actions, NONE, RegStep(0, true), SentAfterBooking(AwaitRefresh));
  }

  /** And the refresh then counts as confirmed at once, before anything has answered it. */
  lemma ConfirmedUnanswered() returns (states: seq<Manager>, actions: seq<Action>)
    ensures IsRun(states, actions, NONE)
    ensures var m := states[|actions|];
            && m.threads == [Refreshing1(ClearRefreshed)]
            && m.log == TOLD + [Positive(0)] + [RefreshSent(0, 1, true)]
  {
    states, actions := SentRun();
    states, actions := Extend(states, actions, NONE, RegStep(0, false), SentAfterBooking(TestRefreshed));
    states, actions := Extend(states, actions, NONE, RegStep(0, false), SentAfterBooking(ClearRefreshed));
  }

  // ---------------------------------------------------------------- H1

  /** The registered account is asked to stop, and its registration thread has seen it. */
  lemma ExitingRun(loose: Loose) returns (states: seq<Manager>, actions: seq<Action>)
    ensures IsRun(states, actions, loose)
    ensures states[|actions|] == Stopping(REGISTERED.(doShutdown := true), Exit, TOLD)
  {
    states, actions := RegisteredRun(loose);
    var b := REGISTERED.(doShutdown := true);
    states, actions := Extend(states, actions, loose, StartUnregistration(5),
                              Owned(REGISTERED, TestShutdown, GuardAt(5, 0), TOLD));
    states, actions := Extend(states, actions, loose, FinishGuard, Stopping(b, TestShutdown, TOLD));
    states, actions := Extend(states, actions, loose, RegStep(0, true), Stopping(b, Exit, TOLD));
  }

  /** Without H1: between its two final writes a registration thread lets a second unregistration past the guard. */
  lemma WithoutOneExitStep() returns (states: seq<Manager>, actions: seq<Action>)
    ensures IsRun(states, actions, Loose({HalfExit(0)}, true)) && TwoClosers(states[|actions|])
  {
    var loose := Loose({HalfExit(0)}, true);
    states, actions := ExitingRun(loose);
    var m := Stopping(REGISTERED, ExitHalfway, TOLD);
    states, actions := Extend(states, actions, loose, HalfExit(0), m);
    states, actions := Extend(states, actions, loose, StartUnregistration(5), m.(holder := GuardAt(5, 0)));
    var two := One(REGISTERED.(doShutdown := true), [Registration(ExitHalfway), Closer(Poll), Closer(Poll)], Free, 0,
                   Some(0), Some(2), 1, TOLD);
    states, actions := Extend(states, actions, loose, FinishGuard, two);
    assert UnregRunning(two.threads[1]) && UnregRunning(two.threads[2]);
  }

  // ---------------------------------------------------------------- H2

  /** An account whose unregistration starts before its first answer. */
  lemma StoppedRun(loose: Loose) returns (states: seq<Manager>, actions: seq<Action>)
    ensures IsRun(states, actions, loose)
    ensures states[|actions|] == Stopping(Claimed7(CLEARED).(doShutdown := true), AwaitOk, [InitialSent(0)])
  {
    states, actions := ClaimedRun(loose);
    states, actions := Extend(states, actions, loose, StartUnregistration(5),
                              Owned(Claimed7(CLEARED), AwaitOk, GuardAt(5, 0), [InitialSent(0)]));
    states, actions := Extend(states, actions, loose, FinishGuard,
                              Stopping(Claimed7(CLEARED).(doShutdown := true), AwaitOk, [InitialSent(0)]));
  }

  /** The first wait of that account times out. */
  lemma LeavingRun(loose: Loose) returns (states: seq<Manager>, actions: seq<Action>)
    ensures IsRun(states, actions, loose)
    ensures states[|actions|] == Stopping(Claimed7(CLEARED).(doShutdown := true, waitingOnRegOk := false),
                                          TestRegistered, [InitialSent(0)])
  {
    states, actions := StoppedRun(loose);
    var a := Claimed7(CLEARED).(doShutdown := true);
    states, actions := Extend(states, actions, loose, RegStep(0, true), Stopping(a, ClearArrived, [InitialSent(0)]));
    states, actions := Extend(states, actions, loose, RegStep(0, true), Stopping(a, ClearWaiting, [InitialSent(0)]));
    states, actions := Extend(states, actions, loose, RegStep(0, true),
                              Stopping(a.(waitingOnRegOk := false), TestRegistered, [InitialSent(0)]));
  }

  /** The claim of that account is cleared while its unregistration still polls. */
  lemma ClearedRun(loose: Loose) returns (states: seq<Manager>, actions: seq<Action>)
    ensures IsRun(states, actions, loose)
    ensures states[|actions|] == Closing(CLEARED, Poll, Free, [InitialSent(0), Cleared(0)])
  {
    states, actions := LeavingRun(loose);
    var a := Claimed7(CLEARED).(doShutdown := true, waitingOnRegOk := false);
    states, actions := Extend(states, actions, loose, RegStep(0, true), Stopping(a, Leave, [InitialSent(0)]));
    states, actions := Extend(states, actions, loose, RegStep(0, true),
                              Closing(CLEARED, Poll, Free, [InitialSent(0), Cleared(0)]));
  }

  /** Without H2: a cleared slot is claimed for another account while the old unregistration still polls it. */
  lemma WithoutPollingGuard() returns (states: seq<Manager>, actions: seq<Action>)
    ensures IsRun(states, actions, Loose({StartRegistration(6, 8)}, true)) && TwoClosers(states[|actions|])
  {
    var loose := Loose({StartRegistration(6, 8)}, true);
    states, actions := ClearedRun(loose);
    var b := CLEARED.(accountId := 6, regId := 8, waitingOnRegOk := true);
    var log := [InitialSent(0), Cleared(0), InitialSent(1)];
    var ts := [Registration(RegDone), Closer(Poll), Registering(6, 0, 1, 0, AwaitOk)];
    states, actions := Extend(states, actions, loose, StartRegistration(6, 8),
                              One(b, ts, Free, 1, Some(2), Some(1), 2, log));
    states, actions := Extend(states, actions, loose, StartUnregistration(6),
                              One(b, ts, GuardAt(6, 0), 1, Some(2), Some(1), 2, log));
    var two := One(b.(doShutdown := true), ts + [Unregistering(6, 0, 1, Poll)], Free, 1, Some(2), Some(3), 2, log);
    states, actions := Extend(states, actions, loose, FinishGuard, two);
    assert UnregRunning(two.threads[1]) && UnregRunning(two.threads[3]);
  }

  // ---------------------------------------------------------------- H3, and what the unlocked clear leaves behind

  /** The registration thread of the registered account has ended. */
  lemma EndedRun(loose: Loose) returns (states: seq<Manager>, actions: seq<Action>)
    ensures IsRun(states, actions, loose)
    ensures states[|actions|] == Closing(REGISTERED.(isShutdown := true), ResetArrived, Free, TOLD)
  {
    states, actions := ExitingRun(loose);
    var a := REGISTERED.(isShutdown := true);
    states, actions := Extend(states, actions, loose, RegStep(0, true), Closing(a, Poll, Free, TOLD));
    states, actions := Extend(states, actions, loose, UnregStep(1, true), Closing(a, TestUsable, Free, TOLD));
    states, actions := Extend(states, actions, loose, UnregStep(1, true), Closing(a, ResetArrived, Free, TOLD));
  }

  /** Its REGISTER with expires 0 has been sent. */
  lemma UnregisteringRun(loose: Loose) returns (states: seq<Manager>, actions: seq<Action>)
    ensures IsRun(states, actions, loose)
    ensures states[|actions|] == Closing(REGISTERED.(isShutdown := true, waitingOnUnregOk := true), AwaitUnreg, Free,
                                         UNREGISTERED)
  {
    states, actions := EndedRun(loose);
    var a := REGISTERED.(isShutdown := true);
    var b := a.(waitingOnUnregOk := true);
    states, actions := Extend(states, actions, loose, UnregStep(1, true), Closing(a, MarkUnreg, Free, TOLD));
    states, actions := Extend(states, actions, loose, UnregStep(1, true), Closing(b, SendUnreg, Free, TOLD));
    states, actions := Extend(states, actions, loose, UnregStep(1, true), Closing(b, AwaitUnreg, Free, UNREGISTERED));
  }

  /** The slot is about to be cleared. */
  lemma ClosingRun(loose: Loose) returns (states: seq<Manager>, actions: seq<Action>)
    ensures IsRun(states, actions, loose)
    ensures states[|actions|] == Closing(REGISTERED.(isShutdown := true), ClearSlot, Free, UNREGISTERED)
  {
    states, actions := UnregisteringRun(loose);
    var a := REGISTERED.(isShutdown := true);
    var b := a.(waitingOnUnregOk := true);
    states, actions := Extend(states, actions, loose, UnregStep(1, true),
                              Closing(b, ClearUnregArrived, Free, UNREGISTERED));
    states, actions := Extend(states, actions, loose, UnregStep(1, true),
                              Closing(b, ClearUnregWaiting, Free, UNREGISTERED));
    states, actions := Extend(states, actions, loose, UnregStep(1, true), Closing(a, Report, Free, UNREGISTERED));
    states, actions := Extend(states, actions, loose, UnregStep(1, true), Closing(a, ClearSlot, Free, UNREGISTERED));
  }

  /** A second unregistration has looked the slot up before its account ID is cleared. */
  lemma GuardedRun(loose: Loose) returns (states: seq<Manager>, actions: seq<Action>)
    ensures IsRun(states, actions, loose)
    ensures states[|actions|] == Closing(REGISTERED.(isShutdown := true, accountId := -1), ClearRest, GuardAt(5, 0),
                                         UNREGISTERED)
  {
    states, actions := ClosingRun(loose);
    var a := REGISTERED.(isShutdown := true);
    states, actions := Extend(states, actions, loose, StartUnregistration(5),
                              Closing(a, ClearSlot, GuardAt(5, 0), UNREGISTERED));
    states, actions := Extend(states, actions, loose, UnregStep(1, true),
                              Closing(a.(accountId := -1), ClearRest, GuardAt(5, 0), UNREGISTERED));
  }

  /** Without H3: it gets past the guard while the first one is still clearing the slot. */
  lemma WithoutOneClearStep() returns (states: seq<Manager>, actions: seq<Action>)
    ensures IsRun(states, actions, Loose({HalfClear(1)}, true)) && TwoClosers(states[|actions|])
  {
    var loose := Loose({HalfClear(1)}, true);
    states, actions := GuardedRun(loose);
    states, actions := Extend(states, actions, loose, HalfClear(1),
                              Closing(CLEARED, ClearTail, GuardAt(5, 0), UNREGISTERED));
    var two := One(CLEARED.(doShutdown := true), [Registration(RegDone), Closer(ClearTail), Closer(Poll)], Free, 0,
                   None, Some(2), 1, UNREGISTERED);
    states, actions := Extend(states, actions, loose, FinishGuard, two);
    assert UnregRunning(two.threads[1]) && UnregRunning(two.threads[2]);
  }

  const LATE_LOG := UNREGISTERED + [Cleared(0)]
  const ENDED := [Registration(RegDone), Closer(UnregDone), Closer(UnregDone)]

  /** Within the hypotheses it leaves doShutdown set in an unused slot. */
  lemma LateGuardMarksUnusedSlot() returns (states: seq<Manager>, actions: seq<Action>)
    ensures IsRun(states, actions, NONE)
    ensures states[|actions|] == One(CLEARED.(doShutdown := true), ENDED, Free, 0, None, None, 1, LATE_LOG)
  {
    states, actions := LateGuardRun();
    var a := CLEARED.(doShutdown := true);
    states, actions := Extend(states, actions, NONE, UnregStep(2, true),
                              One(a, [Registration(RegDone), Closer(UnregDone), Closer(TestUsable)], Free, 0, None,
                                  Some(2), 1, LATE_LOG));
    states, actions := Extend(states, actions, NONE, UnregStep(2, true),
                              One(a, ENDED, Free, 0, None, None, 1, LATE_LOG));
  }

  const MARKED_CLAIM := Claimed8(CLEARED.(doShutdown := true))

  function Claimed8(a: Acc): Acc {
    a.(accountId := 6, regId := 8, waitingOnRegOk := true)
  }

  /** The slot so marked after it was claimed again, with the new thread at `pc`. */
  function Marked(a: Acc, pc: RegPc, holder: Holder, log: seq<Event>): Manager {
    One(a, ENDED + [Registering(6, 0, 1, 0, pc)], holder, 1, if pc == RegDone then None else Some(3), None, 2,
        LATE_LOG + [InitialSent(1)] + log)
  }

  lemma MarkedClaimRun() returns (states: seq<Manager>, actions: seq<Action>)
    ensures IsRun(states, actions, NONE)
    ensures states[|actions|] == Marked(MARKED_CLAIM.(isRegistered := true, eventArrived := true), AwaitOk, Free,
                                        [Positive(1)])
  {
    states, actions := LateGuardMarksUnusedSlot();
    states, actions := Extend(states, actions, NONE, StartRegistration(6, 8), Marked(MARKED_CLAIM, AwaitOk, Free, []));
    states, actions := Extend(states, actions, NONE, ReceiveEvent(8, RegistrationSuccess),
                              Marked(MARKED_CLAIM, AwaitOk, EventAt(0, RegistrationSuccess), [Positive(1)]));
    states, actions := Extend(states, actions, NONE, FinishEvent,
                              Marked(MARKED_CLAIM.(isRegistered := true, eventArrived := true), AwaitOk, Free,
                                     [Positive(1)]));
  }

  const MARKED_SEEN := MARKED_CLAIM.(isRegistered := true, waitingOnRegOk := false)

  lemma MarkedWokenRun() returns (states: seq<Manager>, actions: seq<Action>)
    ensures IsRun(states, actions, NONE)
    ensures states[|actions|] == Marked(MARKED_CLAIM.(isRegistered := true), ClearWaiting, Free, [Positive(1)])
  {
    states, actions := MarkedClaimRun();
    var a := MARKED_CLAIM.(isRegistered := true);
    states, actions := Extend(states, actions, NONE, RegStep(3, false),
                              Marked(a.(eventArrived := true), ClearArrived, Free, [Positive(1)]));
    states, actions := Extend(states, actions, NONE, RegStep(3, false), Marked(a, ClearWaiting, Free, [Positive(1)]));
  }

  lemma MarkedSeenRun() returns (states: seq<Manager>, actions: seq<Action>)
    ensures IsRun(states, actions, NONE)
    ensures states[|actions|] == Marked(MARKED_SEEN, TellGui, Free, [Positive(1)])
  {
    states, actions := MarkedWokenRun();
    states, actions := Extend(states, actions, NONE, RegStep(3, false),
                              Marked(MARKED_SEEN, TestRegistered, Free, [Positive(1)]));
    states, actions := Extend(states, actions, NONE, RegStep(3, false),
                              Marked(MARKED_SEEN, TellGui, Free, [Positive(1)]));
  }

  lemma MarkedToldRun() returns (states: seq<Manager>, actions: seq<Action>)
    ensures IsRun(states, actions, NONE)
    ensures states[|actions|] == Marked(MARKED_SEEN, Exit, Free, [Positive(1), ToldRegistered(1)])
  {
    states, actions := MarkedSeenRun();
    var log := [Positive(1), ToldRegistered(1)];
    states, actions := Extend(states, actions, NONE, RegStep(3, true), Marked(MARKED_SEEN, TestShutdown, Free, log));
    states, actions := Extend(states, actions, NONE, RegStep(3, true), Marked(MARKED_SEEN, Exit, Free, log));
  }

  const SILENCED := MARKED_SEEN.(doShutdown := false, isShutdown := true)

  /** The thread that has claimed it reports success and ends at once. */
  lemma SilencedRun() returns (states: seq<Manager>, actions: seq<Action>)
    ensures IsRun(states, actions, NONE)
    ensures states[|actions|] == Marked(SILENCED, RegDone, Free, [Positive(1), ToldRegistered(1)])
  {
    states, actions := MarkedToldRun();
    states, actions := Extend(states, actions, NONE, RegStep(3, true),
                              Marked(SILENCED, RegDone, Free, [Positive(1), ToldRegistered(1)]));
  }

  predicate Silenced(m: Manager) {
    && Shape(m) && m.accs == [SILENCED] && ToldRegistered(1) in m.log && Abandoned(m, 0)
    && forall t :: t in m.threads ==> !RegRunning(t) && !UnregRunning(t)
  }

  lemma MarkedIsSilenced()
    ensures Silenced(Marked(SILENCED, RegDone, Free, [Positive(1), ToldRegistered(1)]))
  {
    var log := [Positive(1), ToldRegistered(1)];
    assert log[1] == ToldRegistered(1) && log[1] in LATE_LOG + [InitialSent(1)] + log;
  }

  /** Every state of a run within the hypotheses meets the invariant. */
  lemma {:induction false} StrictRunKeeps(states: seq<Manager>, actions: seq<Action>, k: nat)
    requires IsRun(states, actions, NONE) && k <= |actions|
    ensures Inv(states[k])
  {
    if k == 0 { BootInv(1); } else {
      StrictRunKeeps(states, actions, k - 1);
      StepKeeps(states[k - 1], actions[k - 1]);
    }
  }

  /**
   So a late guard can end in this, within the hypotheses: an account whose registration was reported to the GUI and
   that nobody refreshes, and whatever happens afterwards it can neither be unregistered nor registered again.
   */
  lemma LateGuardSilencesAccount() returns (states: seq<Manager>, actions: seq<Action>)
    ensures IsRun(states, actions, NONE)
    ensures Silenced(states[|actions|])
    ensures forall more :: SilentAfter(states[|actions|], more)
  {
    states, actions := SilencedRun();
    var m := states[|actions|];
    StrictRunKeeps(states, actions, |actions|);
    MarkedIsSilenced();
    forall more ensures SilentAfter(m, more) {
      SilentForever(m, more);
    }
  }

  lemma SilentForever(m: Manager, more: seq<Action>)
    requires Inv(m) && Silenced(m)
    ensures SilentAfter(m, more)
  {
    AbandonedForever(m, more, 0);
  }

  /** Account 6 keeps its slot and is refused both requests after these further steps. */
  ghost predicate SilentAfter(m: Manager, more: seq<Action>) {
    var m' := Execute(m, more);
    && |m'.accs| > 0 && Shape(m') && Abandoned(m', 0) && m'.accs[0].accountId == 6
    && (forall regId :: Register(m'.accs, 6, regId) == (m'.accs, InUse))
    && RequestShutdown(m'.accs, 6) == (m'.accs, -1)
  }

  lemma LateGuardRun() returns (states: seq<Manager>, actions: seq<Action>)
    ensures IsRun(states, actions, NONE)
    ensures states[|actions|] == One(CLEARED.(doShutdown := true),
                                     [Registration(RegDone), Closer(UnregDone), Closer(Poll)], Free, 0, None, Some(2),
                                     1, UNREGISTERED + [Cleared(0)])
  {
    states, actions := GuardedRun(NONE);
    var log := UNREGISTERED + [Cleared(0)];
    states, actions := Extend(states, actions, NONE, UnregStep(1, true),
                              One(CLEARED, [Registration(RegDone), Closer(UnregDone)], GuardAt(5, 0), 0, None, None,
                                  1, log));
    states, actions := Extend(states, actions, NONE, FinishGuard,
                              One(CLEARED.(doShutdown := true),
                                  [Registration(RegDone), Closer(UnregDone), Closer(Poll)], Free,
                                  0, None, Some(2), 1, log));
  }

  /** An event that has looked the slot up is booked after it was cleared, and eventArrived stays set. */
  lemma LateEventRun() returns (states: seq<Manager>, actions: seq<Action>)
    ensures IsRun(states, actions, NONE)
    ensures states[|actions|] == One(CLEARED.(eventArrived := true), [Registration(RegDone), Closer(UnregDone)], Free,
                                     0, None, None, 1, UNREGISTERED + [Cleared(0)])
  {
    states, actions := ClosingRun(NONE);
    var a, at := REGISTERED.(isShutdown := true), EventAt(0, RegistrationFailure);
    var m := One(CLEARED, [Registration(RegDone), Closer(UnregDone)], at, 0, None, None, 1,
                 UNREGISTERED + [Cleared(0)]);
    states, actions := Extend(states, actions, NONE, ReceiveEvent(7, RegistrationFailure),
                              Closing(a, ClearSlot, at, UNREGISTERED));
    states, actions := Extend(states, actions, NONE, UnregStep(1, true),
                              Closing(a.(accountId := -1), ClearRest, at, UNREGISTERED));
    states, actions := Extend(states, actions, NONE, UnregStep(1, true), m);
    states, actions := Extend(states, actions, NONE, FinishEvent,
                              m.(accs := [CLEARED.(eventArrived := true)], holder := Free));
  }

  const WAITING_AGAIN := CLEARED.(eventArrived := true, accountId := 6, regId := 8, waitingOnRegOk := true)

  /** A second claim, at `pc`, of the slot that a late event has marked. */
  function Reclaimed(pc: RegPc): Manager {
    One(WAITING_AGAIN, [Registration(RegDone), Closer(UnregDone), Registering(6, 0, 1, 0, pc)], Free, 1, Some(2),
        None, 2, UNREGISTERED + [Cleared(0)] + [InitialSent(1)])
  }

  lemma LateReclaim() returns (states: seq<Manager>, actions: seq<Action>)
    ensures IsRun(states, actions, NONE) && states[|actions|] == Reclaimed(AwaitOk)
  {
    states, actions := LateEventRun();
    states, actions := Extend(states, actions, NONE, StartRegistration(6, 8), Reclaimed(AwaitOk));
  }

  /** The next claim of that slot then stops waiting at once, with no event and no timeout of its own. */
  lemma LateEventEndsNextWait() returns (states: seq<Manager>, actions: seq<Action>)
    ensures IsRun(states, actions, NONE) && |actions| > 0 && actions[|actions| - 1] == RegStep(2, false)
    ensures var m := states[|actions|];
            && m.log == UNREGISTERED + [Cleared(0)] + [InitialSent(1)]
            && |m.threads| == 3 && m.threads[2] == Registering(6, 0, 1, 0, ClearArrived)
  {
    states, actions := LateReclaim();
    states, actions := Extend(states, actions, NONE, RegStep(2, false), Reclaimed(ClearArrived));
  }
}
