/** Claims of a slot that an unregistration thread is still clearing, the part of H2 that goes beyond polling. */
module RegistrarWindow {
  import opened Options
  import opened Events
  import opened RegistrarSpec
  import opened RegistrarThreads
  import opened RegistrarSafety
  import opened RegistrarLimits

  /**
   Whatever claims a slot between the write of its account ID and the other writes loses its registration ID with
   these: the slot is in use, its thread waits, and no event can find it.
   */
  lemma ClaimIsWipedOut(m: Manager, accountId: int, regId: int, i: nat, ok: bool)
    requires Inv(m) && m.holder == Free && accountId != -1 && regId != -1
    requires i < |m.threads| && m.threads[i].Unregistering? && m.threads[i].upc == ClearRest
    requires m.threads[i].pos == FindEmpty(m.accs) && FindByAccount(m.accs, accountId) == -1
    ensures var claim, p := StartRegistration(accountId, regId), m.threads[i].pos;
            Enabled(m, claim) &&
            var m' := Fire(m, claim);
            Enabled(m', UnregStep(i, ok)) &&
            var m'' := Fire(m', UnregStep(i, ok));
            && Shape(m'') && p < |m''.accs| && m''.accs[p] == CLEARED.(accountId := accountId)
            && RegPcOf(m'', p) == Some(AwaitOk) && FindByRegId(m''.accs, regId) != p
  {
    assert ViewOk(ViewOf(m, m.threads[i].pos), m.log);
    ClaimTakes(m, accountId, regId, m.threads[i].pos);
  }

  lemma ClaimTakes(m: Manager, accountId: int, regId: int, p: nat)
    requires Shape(m) && p == FindEmpty(m.accs) && FindByAccount(m.accs, accountId) == -1 && regId != -1
    ensures var m' := Begin(m, accountId, regId);
            && Shape(m') && |m'.accs| == |m.accs| && m'.accs[p].accountId == accountId && m'.closer == m.closer
            && m'.owner[p] == Some(|m.threads|)
            && m'.threads == m.threads + [Registering(accountId, p, m.nextClaim, 0, AwaitOk)]
  {
  }

  /** The slot is about to lose all but its account ID, which is unset already. */
  lemma HalfClosedRun(loose: Loose) returns (states: seq<Manager>, actions: seq<Action>)
    ensures IsRun(states, actions, loose)
    ensures states[|actions|] == Closing(REGISTERED.(isShutdown := true, accountId := -1), ClearRest, Free,
                                         UNREGISTERED)
  {
    states, actions := ClosingRun(loose);
    states, actions := Extend(states, actions, loose, UnregStep(1, true),
                              Closing(REGISTERED.(isShutdown := true, accountId := -1), ClearRest, Free, UNREGISTERED));
  }

  /** This happens in a run. */
  lemma ClaimedWhileCleared() returns (states: seq<Manager>, actions: seq<Action>)
    ensures IsRun(states, actions, Loose({StartRegistration(6, 8)}, true))
    ensures var m := states[|actions|];
            && m.accs == [CLEARED.(accountId := 6)]
            && m.threads == [Registration(RegDone), Closer(UnregDone), Registering(6, 0, 1, 0, AwaitOk)]
  {
    var loose := Loose({StartRegistration(6, 8)}, true);
    states, actions := HalfClosedRun(loose);
    var a := REGISTERED.(isShutdown := true, isRegistered := false, accountId := 6, regId := 8, waitingOnRegOk := true);
    var log := UNREGISTERED + [InitialSent(1)];
    states, actions := Extend(states, actions, loose, StartRegistration(6, 8),
                              One(a, [Registration(RegDone), Closer(ClearRest), Registering(6, 0, 1, 0, AwaitOk)], Free,
                                  1, Some(2), Some(1), 2, log));
    states, actions := Extend(states, actions, loose, UnregStep(1, true),
                              One(CLEARED.(accountId := 6),
                                  [Registration(RegDone), Closer(UnregDone), Registering(6, 0, 1, 0, AwaitOk)], Free,
                                  1, Some(2), None, 2, log + [Cleared(0)]));
  }

  /**
   And after a first claim whose REGISTER could not be sent, a second one lets another unregistration past the guard
   while the first is still clearing.
   */
  lemma WithoutClearingGuard() returns (states: seq<Manager>, actions: seq<Action>)
    ensures IsRun(states, actions, LOOSE) && TwoClosers(states[|actions|])
  {
    states, actions := FirstGuardRun();
    var two := Solo(Claimed8(CLEARED.(doShutdown := true)), Free, ClearRest, Some(3), []);
    assert UnregRunning(two.threads[1]) && UnregRunning(two.threads[3]);
  }

  lemma FirstGuardRun() returns (states: seq<Manager>, actions: seq<Action>)
    ensures IsRun(states, actions, LOOSE)
    ensures states[|actions|] == Solo(Claimed8(CLEARED.(doShutdown := true)), Free, ClearRest, Some(3), [])
  {
    states, actions := HalfClosedRun(LOOSE);
    states, actions := Extend(states, actions, LOOSE, StartRegistration(6, -1),
                              Closing(CLEARED, ClearRest, Free, UNREGISTERED));
    states, actions := SecondClaim(states, actions);
    states, actions := Extend(states, actions, LOOSE, FinishGuard,
                              Solo(Claimed8(CLEARED.(doShutdown := true)), Free, ClearRest, Some(3), []));
  }

  /** The slot after a second claim, which the first unregistration thread has not finished clearing. */
  function Second(holder: Holder): Manager {
    One(Claimed8(CLEARED), [Registration(RegDone), Closer(ClearRest), Registering(6, 0, 1, 0, AwaitOk)], holder, 1,
        Some(2), Some(1), 2, UNREGISTERED + [InitialSent(1)])
  }

  lemma SecondClaim(states: seq<Manager>, actions: seq<Action>) returns (states': seq<Manager>, actions': seq<Action>)
    requires IsRun(states, actions, LOOSE) && states[|actions|] == Closing(CLEARED, ClearRest, Free, UNREGISTERED)
    ensures IsRun(states', actions', LOOSE) && states'[|actions'|] == Second(GuardAt(6, 0))
  {
    states', actions' := Extend(states, actions, LOOSE, StartRegistration(6, 8), Second(Free));
    states', actions' := Extend(states', actions', LOOSE, StartUnregistration(6), Second(GuardAt(6, 0)));
  }

  // ---------------------------------------------------------------- two REGISTERs with expires 0 for one claim

  const LOOSE := Loose({StartRegistration(6, -1), StartRegistration(6, 8)}, false)

  /** The second claim, when the first unregistration thread has ended, with the two that then work for it. */
  function Duel(a: Acc, pc: RegPc, one: UnregPc, other: UnregPc, log: seq<Event>): Manager {
    One(a, [Registration(RegDone), Closer(UnregDone), Registering(6, 0, 1, 0, pc), Unregistering(6, 0, 1, one),
            Unregistering(6, 0, 1, other)], Free, 1, if pc == RegDone then None else Some(2), Some(4), 2,
        UNREGISTERED + [InitialSent(1), Positive(1), Cleared(0)] + log)
  }

  /** Before the second of them, at the slot a late event has marked. */
  function Solo(a: Acc, holder: Holder, first: UnregPc, closer: Option<nat>, log: seq<Event>): Manager {
    One(a, [Registration(RegDone), Closer(first), Registering(6, 0, 1, 0, AwaitOk), Unregistering(6, 0, 1, Poll)],
        holder, 1, Some(2), closer, 2, UNREGISTERED + [InitialSent(1)] + log)
  }

  const WIPED := CLEARED.(accountId := 6)
  const CONFIRMED := WIPED.(isRegistered := true, isRefreshed := true)

  lemma SoloRun() returns (states: seq<Manager>, actions: seq<Action>)
    ensures IsRun(states, actions, LOOSE)
    ensures states[|actions|] == Solo(CONFIRMED.(eventArrived := true), Free, UnregDone, None,
                                      [Positive(1), Cleared(0)])
  {
    states, actions := FirstGuardRun();
    var at := EventAt(0, RegistrationRefreshed);
    states, actions := Extend(states, actions, LOOSE, ReceiveEvent(8, RegistrationRefreshed),
                              Solo(Claimed8(CLEARED.(doShutdown := true)), at, ClearRest, Some(3), [Positive(1)]));
    states, actions := Extend(states, actions, LOOSE, UnregStep(1, true),
                              Solo(WIPED, at, UnregDone, None, [Positive(1), Cleared(0)]));
    states, actions := Extend(states, actions, LOOSE, FinishEvent,
                              Solo(CONFIRMED.(eventArrived := true), Free, UnregDone, None, [Positive(1), Cleared(0)]));
  }

  lemma DuelRun() returns (states: seq<Manager>, actions: seq<Action>)
    ensures IsRun(states, actions, LOOSE)
    ensures states[|actions|] == Duel(CONFIRMED.(eventArrived := true, doShutdown := true), AwaitOk, Poll, Poll, [])
  {
    states, actions := SoloRun();
    states, actions := Extend(states, actions, LOOSE, StartUnregistration(6),
                              Solo(CONFIRMED.(eventArrived := true), GuardAt(6, 0), UnregDone, None,
                                   [Positive(1), Cleared(0)]));
    states, actions := Extend(states, actions, LOOSE, FinishGuard,
                              Duel(CONFIRMED.(eventArrived := true, doShutdown := true), AwaitOk, Poll, Poll, []));
  }

  lemma DuelSeenRun() returns (states: seq<Manager>, actions: seq<Action>)
    ensures IsRun(states, actions, LOOSE)
    ensures states[|actions|] == Duel(CONFIRMED.(doShutdown := true), TestRegistered, Poll, Poll, [])
  {
    states, actions := DuelRun();
    var a := CONFIRMED.(doShutdown := true);
    states, actions := Extend(states, actions, LOOSE, RegStep(2, false),
                              Duel(a.(eventArrived := true), ClearArrived, Poll, Poll, []));
    states, actions := Extend(states, actions, LOOSE, RegStep(2, false), Duel(a, ClearWaiting, Poll, Poll, []));
    states, actions := Extend(states, actions, LOOSE, RegStep(2, false), Duel(a, TestRegistered, Poll, Poll, []));
  }

  lemma DuelTellingRun() returns (states: seq<Manager>, actions: seq<Action>)
    ensures IsRun(states, actions, LOOSE)
    ensures states[|actions|] == Duel(CONFIRMED.(doShutdown := true), TellGui, Poll, Poll, [])
  {
    states, actions := DuelSeenRun();
    states, actions := Extend(states, actions, LOOSE, RegStep(2, false),
                              Duel(CONFIRMED.(doShutdown := true), TellGui, Poll, Poll, []));
  }

  lemma DuelToldRun() returns (states: seq<Manager>, actions: seq<Action>)
    ensures IsRun(states, actions, LOOSE)
    ensures states[|actions|] == Duel(CONFIRMED.(doShutdown := true), Exit, Poll, Poll, [ToldRegistered(1)])
  {
    states, actions := DuelTellingRun();
    var a, log := CONFIRMED.(doShutdown := true), [ToldRegistered(1)];
    states, actions := Extend(states, actions, LOOSE, RegStep(2, true), Duel(a, TestShutdown, Poll, Poll, log));
    states, actions := Extend(states, actions, LOOSE, RegStep(2, true), Duel(a, Exit, Poll, Poll, log));
  }

  const ENDED_CLAIM := CONFIRMED.(isShutdown := true)

  lemma DuelEndedRun() returns (states: seq<Manager>, actions: seq<Action>)
    ensures IsRun(states, actions, LOOSE)
    ensures states[|actions|] == Duel(ENDED_CLAIM, RegDone, Poll, Poll, [ToldRegistered(1)])
  {
    states, actions := DuelToldRun();
    states, actions := Extend(states, actions, LOOSE, RegStep(2, true),
                              Duel(ENDED_CLAIM, RegDone, Poll, Poll, [ToldRegistered(1)]));
  }

  lemma FirstUsableRun() returns (states: seq<Manager>, actions: seq<Action>)
    ensures IsRun(states, actions, LOOSE)
    ensures states[|actions|] == Duel(ENDED_CLAIM, RegDone, ResetArrived, Poll, [ToldRegistered(1)])
  {
    states, actions := DuelEndedRun();
    states, actions := Extend(states, actions, LOOSE, UnregStep(3, true),
                              Duel(ENDED_CLAIM, RegDone, TestUsable, Poll, [ToldRegistered(1)]));
    states, actions := Extend(states, actions, LOOSE, UnregStep(3, true),
                              Duel(ENDED_CLAIM, RegDone, ResetArrived, Poll, [ToldRegistered(1)]));
  }

  const ONCE := [ToldRegistered(1), UnregisterSent(1, true)]
  const WAITING := ENDED_CLAIM.(waitingOnUnregOk := true)

  lemma FirstSentRun() returns (states: seq<Manager>, actions: seq<Action>)
    ensures IsRun(states, actions, LOOSE)
    ensures states[|actions|] == Duel(WAITING, RegDone, AwaitUnreg, Poll, ONCE)
  {
    states, actions := FirstUsableRun();
    var log := [ToldRegistered(1)];
    states, actions := Extend(states, actions, LOOSE, UnregStep(3, true),
                              Duel(ENDED_CLAIM, RegDone, MarkUnreg, Poll, log));
    states, actions := Extend(states, actions, LOOSE, UnregStep(3, true), Duel(WAITING, RegDone, SendUnreg, Poll, log));
    states, actions := Extend(states, actions, LOOSE, UnregStep(3, true),
                              Duel(WAITING, RegDone, AwaitUnreg, Poll, ONCE));
  }

  lemma SecondUsableRun() returns (states: seq<Manager>, actions: seq<Action>)
    ensures IsRun(states, actions, LOOSE)
    ensures states[|actions|] == Duel(WAITING, RegDone, AwaitUnreg, MarkUnreg, ONCE)
  {
    states, actions := FirstSentRun();
    states, actions := Extend(states, actions, LOOSE, UnregStep(4, true),
                              Duel(WAITING, RegDone, AwaitUnreg, TestUsable, ONCE));
    states, actions := Extend(states, actions, LOOSE, UnregStep(4, true),
                              Duel(WAITING, RegDone, AwaitUnreg, ResetArrived, ONCE));
    states, actions := Extend(states, actions, LOOSE, UnregStep(4, true),
                              Duel(WAITING, RegDone, AwaitUnreg, MarkUnreg, ONCE));
  }

  lemma TwiceRun() returns (states: seq<Manager>, actions: seq<Action>)
    ensures IsRun(states, actions, LOOSE)
    ensures states[|actions|] == Duel(WAITING, RegDone, AwaitUnreg, AwaitUnreg, ONCE + [UnregisterSent(1, true)])
  {
    states, actions := SecondUsableRun();
    states, actions := Extend(states, actions, LOOSE, UnregStep(4, true),
                              Duel(WAITING, RegDone, AwaitUnreg, SendUnreg, ONCE));
    states, actions := Extend(states, actions, LOOSE, UnregStep(4, true),
                              Duel(WAITING, RegDone, AwaitUnreg, AwaitUnreg, ONCE + [UnregisterSent(1, true)]));
  }

  /** In this run, which only claims slots while nobody polls, two REGISTERs with expires 0 are sent for one claim. */
  lemma UnregisteredTwice() returns (states: seq<Manager>, actions: seq<Action>, i: nat, j: nat)
    ensures IsRun(states, actions, LOOSE)
    ensures var log := states[|actions|].log; i < j < |log| && log[i] == log[j] == UnregisterSent(1, true)
  {
    states, actions := TwiceRun();
    var before := UNREGISTERED + [InitialSent(1), Positive(1), Cleared(0)];
    i, j := |before| + 1, |before| + 2;
    assert before + (ONCE + [UnregisterSent(1, true)]) == states[|actions|].log;
  }
}
