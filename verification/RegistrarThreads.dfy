/**
 The threads of core/sip_output/registrar_manager.c as a step system: any number of registration and
 unregistration threads, the event receiver and unregister-all. A single access to a flag is a step. The
 event receiver and the guard of an unregistration hold accInfoLock over two steps, because
 clear_account_info may run between them without the lock; the other locked sections are one step.
 */
module RegistrarThreads {
  import opened Options
  import opened Events
  import opened RegistrarSpec

  /** Where a registration thread is, named after what it does next. */
  datatype RegPc =
    | AwaitOk | ClearArrived | ClearWaiting | TestRegistered | TellGui
    | TestShutdown | MarkRefresh | SendRefresh | AwaitRefresh | TestRefreshed
    | ClearRefreshed | ClearRefreshArrived | ClearRefreshWaiting
    | Leave | LeaveUnsent | Exit | ExitHalfway | RegDone

  /**
   ClearSlot writes the account ID, ClearRest the other fields; ClearTail is left after a part of those
   (HalfClear).
   */
  datatype UnregPc =
    | Poll | TestUsable | ResetArrived | MarkUnreg | SendUnreg | AwaitUnreg
    | ClearUnregArrived | ClearUnregWaiting | Report | ClearSlot | ClearRest | ClearTail | UnregDone

  /** `claim` numbers the uses of slots, `round` the refreshes of a claim; a thread carries the ones it works for. */
  datatype Thread =
    | Registering(accountId: int, pos: nat, claim: nat, round: nat, pc: RegPc)
    | Unregistering(accountId: int, pos: nat, claim: nat, upc: UnregPc)

  datatype Event =
    | InitialSent(claim: nat)                           // the first REGISTER
    | RefreshSent(claim: nat, round: nat, ok: bool)     // an attempt to send a further REGISTER
    | UnregisterSent(claim: nat, ok: bool)              // an attempt to send the REGISTER with expires 0
    | Positive(claim: nat)                              // a positive answer from the registrar
    | ToldRegistered(claim: nat)                        // the GUI was told "registered"
    | Cleared(claim: nat)

  /** Who holds accInfoLock between two steps: an event that found its slot, or the guard of an unregistration. */
  datatype Holder = Free | EventAt(pos: nat, kind: SipType) | GuardAt(accountId: int, pos: nat)

  /** `claims`, `owner` and `closer` are histories: the claim of each slot, and the threads at work on it. */
  datatype Manager = Manager(accs: seq<Acc>, threads: seq<Thread>, holder: Holder, claims: seq<nat>,
                             owner: seq<Option<nat>>, closer: seq<Option<nat>>, nextClaim: nat, log: seq<Event>)

  function Boot(n: nat): Manager {
    Manager(seq(n, _ => CLEARED), [], Free, seq(n, _ => 0), seq(n, _ => None), seq(n, _ => None), 0, [])
  }

  predicate Shape(m: Manager) {
    |m.claims| == |m.accs| && |m.owner| == |m.accs| && |m.closer| == |m.accs|
  }

  predicate RegRunning(t: Thread) {
    t.Registering? && t.pc != RegDone
  }

  /** Past the guard: this thread has asked the registration thread to stop. */
  predicate UnregRunning(t: Thread) {
    t.Unregistering? && t.upc != UnregDone
  }

  // ---------------------------------------------------------------- steps

  datatype Action =
    | StartRegistration(accountId: int, regId: int)
    | StartUnregistration(accountId: int)        // takes the lock and looks the account up
    | FinishGuard                                // tests the flags, sets doShutdown and releases the lock
    | ReceiveEvent(regId: int, kind: SipType)    // takes the lock and looks the registration ID up
    | FinishEvent                                // changes the flags and releases the lock
    | MuteAll
    | MuteSlot(pos: nat)                         // unregister-all, on a slot cleared since it was tested
    | RegStep(i: nat, ok: bool)
    | UnregStep(i: nat, ok: bool)
    | HalfExit(i: nat)               // only the first of the two writes with which a registration thread ends
    | HalfClear(i: nat)              // the writes of clear_account_info up to that of isShutdown

  /** What a thread makes of its slot, where it goes next, and what it logs. */
  datatype Move<Pc> = Move(a: Acc, next: Pc, entry: Option<Event>)

  /** `ok` is what the stack or the GUI returned, or whether the wait or the period is over. */
  function RegMove(a: Acc, pc: RegPc, claim: nat, round: nat, ok: bool): Move<RegPc> {
    match pc
    case AwaitOk => Move(a, if ok || a.eventArrived then ClearArrived else AwaitOk, None)
    case ClearArrived => Move(a.(eventArrived := false), ClearWaiting, None)
    case ClearWaiting => Move(a.(waitingOnRegOk := false), TestRegistered, None)
    case TestRegistered => Move(a, if a.isRegistered then TellGui else Leave, None)
    case TellGui => if ok then Move(a, TestShutdown, Some(ToldRegistered(claim))) else Move(a, Leave, None)
    case TestShutdown => Move(a, if a.doShutdown then Exit else if ok then MarkRefresh else TestShutdown, None)
    case MarkRefresh => Move(a.(waitingOnRefreshOk := true), SendRefresh, None)
    case SendRefresh => Move(a, if ok then AwaitRefresh else LeaveUnsent, Some(RefreshSent(claim, round, ok)))
    case AwaitRefresh => Move(a, if ok || a.eventArrived then TestRefreshed else AwaitRefresh, None)
    case TestRefreshed => Move(a, if a.isRefreshed then ClearRefreshed else Leave, None)
    case ClearRefreshed => Move(a.(isRefreshed := false), ClearRefreshArrived, None)
    case ClearRefreshArrived => Move(a.(eventArrived := false), ClearRefreshWaiting, None)
    case ClearRefreshWaiting => Move(a.(waitingOnRefreshOk := false), TestShutdown, None)
    case Leave => Move(CLEARED, RegDone, Some(Cleared(claim)))
    case LeaveUnsent => Move(CLEARED, RegDone, Some(Cleared(claim)))
    case Exit => Move(a.(doShutdown := false, isShutdown := true), RegDone, None)
    case ExitHalfway => Move(a.(isShutdown := true), RegDone, None)
    case RegDone => Move(a, RegDone, None)
  }

  function UnregMove(a: Acc, pc: UnregPc, claim: nat, ok: bool): Move<UnregPc> {
    match pc
    case Poll => Move(a, if a.isShutdown || a.accountId == -1 then TestUsable else Poll, None)
    case TestUsable => Move(a, if a.isRegistered && a.accountId != -1 then ResetArrived else UnregDone, None)
    case ResetArrived => Move(a.(eventArrived := false), MarkUnreg, None)
    case MarkUnreg => Move(a.(waitingOnUnregOk := true), SendUnreg, None)
    case SendUnreg => Move(a, if ok then AwaitUnreg else UnregDone, Some(UnregisterSent(claim, ok)))
    case AwaitUnreg => Move(a, if ok || a.eventArrived then ClearUnregArrived else AwaitUnreg, None)
    case ClearUnregArrived => Move(a.(eventArrived := false), ClearUnregWaiting, None)
    case ClearUnregWaiting => Move(a.(waitingOnUnregOk := false), Report, None)
    case Report => Move(a, if a.informGui && !ok then UnregDone else ClearSlot, None)
    case ClearSlot => Move(a.(accountId := -1), ClearRest, None)
    case ClearRest => Move(CLEARED.(accountId := a.accountId), UnregDone, Some(Cleared(claim)))
    case ClearTail => Move(Tailless(a), UnregDone, Some(Cleared(claim)))
    case UnregDone => Move(a, UnregDone, None)
  }

  /** The last writes of clear_account_info. */
  function Tailless(a: Acc): Acc {
    a.(waitingOnRegOk := false, waitingOnRefreshOk := false, waitingOnUnregOk := false, informGui := true)
  }

  /** Those between the account ID and them. */
  function HalfCleared(a: Acc): Acc {
    a.(isRegistered := false, isRefreshed := false, regId := -1, eventArrived := false, doShutdown := false,
       isShutdown := false)
  }

  function LogOf(log: seq<Event>, entry: Option<Event>): seq<Event> {
    if entry.Some? then log + [entry.value] else log
  }

  function Begin(m: Manager, accountId: int, regId: int): Manager
    requires Shape(m)
  {
    var (accs, claim) := Register(m.accs, accountId, regId);
    match claim
    case Claimed(p) =>
      var i := |m.threads|;
      m.(accs := accs, threads := m.threads + [Registering(accountId, p, m.nextClaim, 0, AwaitOk)],
         claims := m.claims[p := m.nextClaim], owner := m.owner[p := Some(i)], nextClaim := m.nextClaim + 1,
         log := m.log + [InitialSent(m.nextClaim)])
    case _ => m.(accs := accs)
  }

  function LookAccountUp(m: Manager, accountId: int): Manager {
    var p := FindByAccount(m.accs, accountId);
    if p == -1 then m else m.(holder := GuardAt(accountId, p))
  }

  /** The slot may have been cleared since it was looked up. */
  function PassGuard(m: Manager, accountId: int, p: nat): Manager
    requires Shape(m) && p < |m.accs|
  {
    var a := m.accs[p];
    if a.doShutdown || a.isShutdown then m.(holder := Free)
    else
      m.(accs := m.accs[p := a.(doShutdown := true)], holder := Free,
         threads := m.threads + [Unregistering(accountId, p, m.claims[p], Poll)],
         closer := m.closer[p := Some(|m.threads|)])
  }

  predicate IsPositive(kind: SipType) {
    kind == RegistrationSuccess || kind == RegistrationRefreshed
  }

  function LookEventUp(m: Manager, regId: int, kind: SipType): Manager
    requires Shape(m)
  {
    var p := FindByRegId(m.accs, regId);
    if p == -1 then m
    else m.(holder := EventAt(p, kind),
            log := LogOf(m.log, if IsPositive(kind) then Some(Positive(m.claims[p])) else None))
  }

  function BookEvent(m: Manager, p: nat, kind: SipType): Manager
    requires p < |m.accs|
  {
    m.(accs := m.accs[p := AfterEvent(m.accs[p], kind)], holder := Free)
  }

  function RegStepOf(m: Manager, i: nat, ok: bool): Manager
    requires Enabled(m, RegStep(i, ok))
  {
    var t := m.threads[i];
    RegMoved(m, i, RegMove(m.accs[t.pos], t.pc, t.claim, t.round, ok))
  }

  /** The number of the refresh a thread is in after a move: a new one begins when its flag is set. */
  function NextRound(round: nat, next: RegPc): nat {
    if next == SendRefresh then round + 1 else round
  }

  /** Thread i has made this move. */
  function RegMoved(m: Manager, i: nat, r: Move<RegPc>): Manager
    requires Shape(m) && i < |m.threads| && m.threads[i].Registering? && m.threads[i].pos < |m.accs|
  {
    var t := m.threads[i];
    m.(accs := m.accs[t.pos := r.a], threads := m.threads[i := t.(pc := r.next, round := NextRound(t.round, r.next))],
       log := LogOf(m.log, r.entry), owner := if r.next == RegDone then m.owner[t.pos := None] else m.owner)
  }

  function UnregStepOf(m: Manager, i: nat, ok: bool): Manager
    requires Enabled(m, UnregStep(i, ok))
  {
    var t := m.threads[i];
    UnregMoved(m, i, UnregMove(m.accs[t.pos], t.upc, t.claim, ok))
  }

  function UnregMoved(m: Manager, i: nat, r: Move<UnregPc>): Manager
    requires Shape(m) && i < |m.threads| && m.threads[i].Unregistering? && m.threads[i].pos < |m.accs|
  {
    var t := m.threads[i];
    m.(accs := m.accs[t.pos := r.a], threads := m.threads[i := t.(upc := r.next)], log := LogOf(m.log, r.entry),
       closer := if r.next == UnregDone then m.closer[t.pos := None] else m.closer)
  }

  predicate Enabled(m: Manager, a: Action) {
    Shape(m) &&
    match a
    case StartRegistration(_, _) => m.holder == Free
    case StartUnregistration(_) => m.holder == Free
    case FinishGuard => m.holder.GuardAt? && m.holder.pos < |m.accs|
    case ReceiveEvent(_, _) => m.holder == Free
    case FinishEvent => m.holder.EventAt? && m.holder.pos < |m.accs|
    case MuteAll => m.holder == Free
    case MuteSlot(p) => m.holder == Free && p < |m.accs|
    case RegStep(i, _) =>
      && i < |m.threads| && RegRunning(m.threads[i]) && m.threads[i].pos < |m.accs|
      && (m.threads[i].pc in {Leave, LeaveUnsent} ==> m.holder == Free)
    case UnregStep(i, _) => i < |m.threads| && UnregRunning(m.threads[i]) && m.threads[i].pos < |m.accs|
    case HalfExit(i) =>
      i < |m.threads| && m.threads[i].Registering? && m.threads[i].pc == Exit && m.threads[i].pos < |m.accs|
    case HalfClear(i) =>
      i < |m.threads| && m.threads[i].Unregistering? && m.threads[i].upc == ClearRest && m.threads[i].pos < |m.accs|
  }

  function Fire(m: Manager, a: Action): Manager
    requires Enabled(m, a)
  {
    match a
    case StartRegistration(accountId, regId) => Begin(m, accountId, regId)
    case StartUnregistration(accountId) => LookAccountUp(m, accountId)
    case FinishGuard => PassGuard(m, m.holder.accountId, m.holder.pos)
    case ReceiveEvent(regId, kind) => LookEventUp(m, regId, kind)
    case FinishEvent => BookEvent(m, m.holder.pos, m.holder.kind)
    case MuteAll => m.(accs := Muted(m.accs))
    case MuteSlot(p) => m.(accs := m.accs[p := m.accs[p].(informGui := false)])
    case RegStep(i, ok) => RegStepOf(m, i, ok)
    case UnregStep(i, ok) => UnregStepOf(m, i, ok)
    case HalfExit(i) =>
      var t := m.threads[i];
      m.(accs := m.accs[t.pos := m.accs[t.pos].(doShutdown := false)], threads := m.threads[i := t.(pc := ExitHalfway)])
    case HalfClear(i) =>
      var t := m.threads[i];
      m.(accs := m.accs[t.pos := HalfCleared(m.accs[t.pos])], threads := m.threads[i := t.(upc := ClearTail)])
  }

  /**
   The steps considered: the two writes that end a registration thread are one step (H1); an unused slot is
   not claimed while an unregistration thread is still at work on it (H2); the writes of clear_account_info
   after that of the account ID are one step (H3); and neither events nor requests to unregister carry the
   -1 that marks an unused slot.
   */
  predicate Strict(m: Manager, a: Action) {
    match a
    case HalfExit(_) => false
    case HalfClear(_) => false
    case StartRegistration(accountId, regId) =>
      var p := FindEmpty(m.accs);
      0 <= p < |m.closer| ==> m.closer[p] == None
    case StartUnregistration(accountId) => accountId != -1
    case ReceiveEvent(regId, _) => regId != -1
    case _ => true
  }

  /** Any interleaving of strict steps; others are skipped. */
  function Execute(m: Manager, actions: seq<Action>): Manager
    decreases |actions|
  {
    if actions == [] then m
    else
      var before, a := Execute(m, actions[..|actions| - 1]), actions[|actions| - 1];
      if Enabled(before, a) && Strict(before, a) then Fire(before, a) else before
  }
}
