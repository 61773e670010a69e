/** What every interleaving of registration, unregistration and event threads keeps. */
module RegistrarSafety {
  import opened Options
  import opened Events
  import opened RegistrarSpec
  import opened RegistrarThreads

  // ---------------------------------------------------------------- which entry may follow which log

  /** The REGISTER with expires 0 of this claim has been tried. */
  predicate UnregisterTried(h: seq<Event>, c: nat) {
    UnregisterSent(c, true) in h || UnregisterSent(c, false) in h
  }

  /** How many refreshes of this claim have been tried. */
  function RefreshesTried(h: seq<Event>, c: nat): nat
    decreases |h|
  {
    if h == [] then 0
    else RefreshesTried(h[..|h| - 1], c) + if h[|h| - 1].RefreshSent? && h[|h| - 1].claim == c then 1 else 0
  }

  /**
   Refreshes are numbered from 1; each comes after success was reported to the GUI and never after the
   REGISTER with expires 0 of the same claim (sections 10.2.2 and 10.2.4 of RFC 3261); that is tried at most
   once; success is reported at most once and only after a positive answer; a claim is cleared at most once.
   */
  ghost predicate Allowed(h: seq<Event>, e: Event) {
    match e
    case InitialSent(c) => forall x :: x in h ==> x.claim != c
    case RefreshSent(c, n, _) =>
      && ToldRegistered(c) in h && !UnregisterTried(h, c) && Cleared(c) !in h && n == RefreshesTried(h, c) + 1
    case UnregisterSent(c, _) =>
      && InitialSent(c) in h && Positive(c) in h && !UnregisterTried(h, c) && Cleared(c) !in h
    case Positive(c) => InitialSent(c) in h && Cleared(c) !in h
    case ToldRegistered(c) => Positive(c) in h && ToldRegistered(c) !in h && Cleared(c) !in h
    case Cleared(c) => InitialSent(c) in h && Cleared(c) !in h
  }

  ghost predicate Lawful(log: seq<Event>) {
    forall i :: 0 <= i < |log| ==> Allowed(log[..i], log[i])
  }

  lemma LawfulExtends(h: seq<Event>, e: Event)
    requires Lawful(h) && Allowed(h, e)
    ensures Lawful(h + [e])
  {
    forall i | 0 <= i < |h + [e]|
      ensures Allowed((h + [e])[..i], (h + [e])[i])
    {
      assert (h + [e])[..i] == h[..i];
      if i == |h| { assert h[..i] == h; }
    }
  }

  predicate IsRegister(e: Event) {
    e.InitialSent? || e.RefreshSent? || e.UnregisterSent?
  }

  /** A REGISTER that the stack did send. */
  predicate WasSent(e: Event) {
    e.InitialSent? || ((e.RefreshSent? || e.UnregisterSent?) && e.ok)
  }

  /** The REGISTER sent last for this claim. */
  function LastSent(log: seq<Event>, claim: nat): Option<Event>
    decreases |log|
  {
    if log == [] then None
    else
      var e := log[|log| - 1];
      if WasSent(e) && e.claim == claim then Some(e) else LastSent(log[..|log| - 1], claim)
  }

  lemma LogExtends(log: seq<Event>, e: Event, claim: nat)
    ensures LastSent(log + [e], claim) == if WasSent(e) && e.claim == claim then Some(e) else LastSent(log, claim)
    ensures RefreshesTried(log + [e], claim)
            == RefreshesTried(log, claim) + if e.RefreshSent? && e.claim == claim then 1 else 0
  {
    assert (log + [e])[..|log|] == log;
  }

  lemma {:induction false} LastSentIsLogged(log: seq<Event>, claim: nat)
    ensures LastSent(log, claim).Some? ==> LastSent(log, claim).value in log
    decreases |log|
  {
    if log != [] { LastSentIsLogged(log[..|log| - 1], claim); }
  }

  lemma {:induction false} NothingTriedYet(log: seq<Event>, claim: nat)
    requires forall e :: e in log ==> e.claim != claim
    ensures RefreshesTried(log, claim) == 0
    decreases |log|
  {
    if log != [] { NothingTriedYet(log[..|log| - 1], claim); }
  }

  // ---------------------------------------------------------------- one slot with the threads at work on it

  datatype View = View(a: Acc, claim: nat, reg: Option<RegPc>, round: nat, unreg: Option<UnregPc>)

  predicate FirstWait(pc: RegPc) {
    pc == AwaitOk || pc == ClearArrived || pc == ClearWaiting
  }

  predicate Refreshing(pc: RegPc) {
    || pc == SendRefresh || pc == AwaitRefresh || pc == TestRefreshed || pc == ClearRefreshed
    || pc == ClearRefreshArrived || pc == ClearRefreshWaiting || pc == LeaveUnsent
  }

  predicate Quiet(pc: RegPc) {
    pc == TestRegistered || pc == TellGui || pc == TestShutdown || pc == MarkRefresh || pc == Exit
  }

  predicate Unsent(pc: UnregPc) {
    pc == Poll || pc == TestUsable || pc == ResetArrived || pc == MarkUnreg || pc == SendUnreg
  }

  predicate Sent(pc: UnregPc) {
    pc == AwaitUnreg || pc == ClearUnregArrived || pc == ClearUnregWaiting
  }

  predicate OwnedFlags(a: Acc, pc: RegPc, round: nat) {
    && (FirstWait(pc) || Refreshing(pc) || Quiet(pc) || pc == Leave)
    && (a.waitingOnRegOk <==> FirstWait(pc))
    && (Refreshing(pc) ==> a.waitingOnRefreshOk) && (FirstWait(pc) || Quiet(pc) ==> !a.waitingOnRefreshOk)
    && !a.waitingOnUnregOk && !a.isShutdown && (pc == Exit ==> a.doShutdown)
    && (FirstWait(pc) || pc == TestRegistered || pc == TellGui ==> round == 0) && (a.waitingOnRefreshOk ==> round > 0)
  }

  /** The REGISTER of this refresh, or the first one. */
  function RegisterOf(c: nat, round: nat): Event {
    if round == 0 then InitialSent(c) else RefreshSent(c, round, true)
  }

  /** The refresh a thread is in has been announced but not sent. */
  predicate Pending(pc: RegPc) {
    pc == SendRefresh || pc == LeaveUnsent
  }

  predicate OwnedLog(pc: RegPc, round: nat, c: nat, log: seq<Event>) {
    && !UnregisterTried(log, c)
    && (FirstWait(pc) || pc == TestRegistered || pc == TellGui ==> ToldRegistered(c) !in log)
    && (pc == TellGui ==> Positive(c) in log)
    && (Refreshing(pc) || pc == TestShutdown || pc == MarkRefresh || pc == Exit ==> ToldRegistered(c) in log)
    && LastSent(log, c) == Some(RegisterOf(c, if Pending(pc) && round > 0 then round - 1 else round))
    && RefreshesTried(log, c) == if pc == SendRefresh && round > 0 then round - 1 else round
  }

  predicate ClosedFlags(a: Acc, unreg: Option<UnregPc>) {
    && a.isShutdown && !a.doShutdown && !a.waitingOnRegOk && !a.waitingOnRefreshOk
    && (unreg.Some? ==>
          && unreg.value != UnregDone && unreg.value != ClearTail
          && (a.waitingOnUnregOk <==> unreg.value == SendUnreg || Sent(unreg.value)))
    && (a.accountId == -1 <==> unreg == Some(ClearRest))
  }

  predicate ClosedLog(a: Acc, unreg: Option<UnregPc>, c: nat, log: seq<Event>) {
    && (unreg.Some? && Unsent(unreg.value) ==> !UnregisterTried(log, c))
    && (unreg.Some? && unreg.value != Poll && unreg.value != TestUsable ==> Positive(c) in log)
    && (a.waitingOnUnregOk ==> Positive(c) in log)
    && (unreg.Some? && Sent(unreg.value) ==> LastSent(log, c) == Some(UnregisterSent(c, true)))
    && (a.waitingOnUnregOk && unreg == None ==> UnregisterSent(c, true) !in log)
  }

  /** A slot that was cleared; an event or a guard that had looked it up before may still have changed other fields. */
  predicate Swept(a: Acc) {
    a.accountId == -1 && a.regId == -1 && !a.isShutdown && !a.waitingOnRegOk && !a.waitingOnRefreshOk
    && !a.waitingOnUnregOk
  }

  predicate ViewOk(v: View, log: seq<Event>) {
    if v.a.regId == -1 then
      Swept(v.a) && v.reg == None && (v.unreg.Some? ==> v.unreg.value == Poll || v.unreg.value == TestUsable)
    else
      && InitialSent(v.claim) in log && Cleared(v.claim) !in log
      && (v.a.isRegistered ==> Positive(v.claim) in log)
      && match v.reg
         case Some(pc) =>
           && v.a.accountId != -1 && OwnedFlags(v.a, pc, v.round) && OwnedLog(pc, v.round, v.claim, log)
           && (v.unreg.Some? ==> v.unreg == Some(Poll) && v.a.doShutdown)
         case None => ClosedFlags(v.a, v.unreg) && ClosedLog(v.a, v.unreg, v.claim, log)
  }

  /** Entries about other claims do not matter to a slot. */
  lemma OtherClaim(v: View, log: seq<Event>, e: Event)
    requires ViewOk(v, log) && (v.a.regId == -1 || e.claim != v.claim)
    ensures ViewOk(v, log + [e])
  {
    LogExtends(log, e, v.claim);
  }

  // ---------------------------------------------------------------- the invariant

  function RegPcOf(m: Manager, p: nat): Option<RegPc>
    requires Shape(m) && p < |m.accs|
  {
    match m.owner[p]
    case Some(i) => if i < |m.threads| && m.threads[i].Registering? then Some(m.threads[i].pc) else None
    case None => None
  }

  function RoundOf(m: Manager, p: nat): nat
    requires Shape(m) && p < |m.accs|
  {
    match m.owner[p]
    case Some(i) => if i < |m.threads| && m.threads[i].Registering? then m.threads[i].round else 0
    case None => 0
  }

  function UnregPcOf(m: Manager, p: nat): Option<UnregPc>
    requires Shape(m) && p < |m.accs|
  {
    match m.closer[p]
    case Some(i) => if i < |m.threads| && m.threads[i].Unregistering? then Some(m.threads[i].upc) else None
    case None => None
  }

  function ViewOf(m: Manager, p: nat): View
    requires Shape(m) && p < |m.accs|
  {
    View(m.accs[p], m.claims[p], RegPcOf(m, p), RoundOf(m, p), UnregPcOf(m, p))
  }

  /** The histories name the threads at work, and a thread works for the claim of its slot. */
  ghost predicate ThreadsOk(m: Manager) {
    && Shape(m)
    && (forall i :: 0 <= i < |m.threads| && RegRunning(m.threads[i]) ==>
          var t := m.threads[i]; t.pos < |m.accs| && m.owner[t.pos] == Some(i) && t.claim == m.claims[t.pos])
    && (forall i :: 0 <= i < |m.threads| && UnregRunning(m.threads[i]) ==>
          var t := m.threads[i]; t.pos < |m.accs| && m.closer[t.pos] == Some(i) && t.claim == m.claims[t.pos])
    && (forall p :: 0 <= p < |m.accs| && m.owner[p].Some? ==>
          var i := m.owner[p].value; i < |m.threads| && RegRunning(m.threads[i]) && m.threads[i].pos == p)
    && (forall p :: 0 <= p < |m.accs| && m.closer[p].Some? ==>
          var i := m.closer[p].value; i < |m.threads| && UnregRunning(m.threads[i]) && m.threads[i].pos == p)
  }

  ghost predicate ViewsOk(m: Manager)
    requires Shape(m)
  {
    forall p :: 0 <= p < |m.accs| ==> ViewOk(ViewOf(m, p), m.log)
  }

  /** Used slots hold distinct accounts; these and slots being cleared have distinct claims, all handed out before. */
  ghost predicate SlotsDistinct(accs: seq<Acc>, claims: seq<nat>, nextClaim: nat, log: seq<Event>) {
    && |claims| == |accs|
    && (forall p, q :: 0 <= p < q < |accs| && accs[p].accountId != -1 ==> accs[p].accountId != accs[q].accountId)
    && (forall p, q :: 0 <= p < q < |accs| && accs[p].regId != -1 && accs[q].regId != -1 ==> claims[p] != claims[q])
    && (forall p :: 0 <= p < |accs| && accs[p].regId != -1 ==> claims[p] < nextClaim)
    && (forall e :: e in log ==> e.claim < nextClaim)
  }

  /** A slot that a guard has looked up is not left with a closer that is still polling. */
  predicate GuardedOk(a: Acc, unreg: Option<UnregPc>) {
    a.accountId == -1 ==> unreg == None || unreg == Some(ClearRest)
  }

  ghost predicate HolderOk(m: Manager)
    requires Shape(m)
  {
    match m.holder
    case Free => true
    case EventAt(p, kind) => p < |m.accs| && (IsPositive(kind) ==> Positive(m.claims[p]) in m.log)
    case GuardAt(accountId, p) => accountId != -1 && p < |m.accs| && GuardedOk(m.accs[p], UnregPcOf(m, p))
  }

  /** What concerns the slots and the log, but not the lock. */
  ghost predicate SlotsInv(m: Manager) {
    ThreadsOk(m) && ViewsOk(m) && SlotsDistinct(m.accs, m.claims, m.nextClaim, m.log) && Lawful(m.log)
  }

  ghost predicate Inv(m: Manager) {
    SlotsInv(m) && HolderOk(m)
  }

  lemma BootInv(n: nat)
    ensures Inv(Boot(n))
  {
  }

  // ---------------------------------------------------------------- one step, seen from its slot

  function AfterReg(v: View, r: Move<RegPc>): View {
    if r.next == RegDone then v.(a := r.a, reg := None, round := 0)
    else v.(a := r.a, reg := Some(r.next), round := NextRound(v.round, r.next))
  }

  function AfterUnreg(v: View, r: Move<UnregPc>): View {
    v.(a := r.a, unreg := if r.next == UnregDone then None else Some(r.next))
  }

  ghost predicate EntryOk(v: View, log: seq<Event>, entry: Option<Event>) {
    entry.Some? ==> Allowed(log, entry.value) && entry.value.claim == v.claim && v.a.regId != -1
  }

  predicate Logs(pc: RegPc) {
    pc == TellGui || pc == SendRefresh || pc == Leave || pc == LeaveUnsent
  }

  lemma RegMoveKeeps(v: View, ok: bool, log: seq<Event>)
    requires ViewOk(v, log) && v.reg.Some?
    ensures var r := RegMove(v.a, v.reg.value, v.claim, v.round, ok);
            ViewOk(AfterReg(v, r), LogOf(log, r.entry)) && EntryOk(v, log, r.entry)
  {
    if Logs(v.reg.value) {
      LoggingKeeps(v, ok, log);
    } else {
      NothingLogged(v.a, v.reg.value, v.claim, v.round, ok);
      RegQuietKeeps(v, ok, log);
    }
  }

  lemma NothingLogged(a: Acc, pc: RegPc, claim: nat, round: nat, ok: bool)
    requires !Logs(pc)
    ensures RegMove(a, pc, claim, round, ok).entry == None
  {
  }

  lemma RegQuietKeeps(v: View, ok: bool, log: seq<Event>)
    requires ViewOk(v, log) && v.reg.Some? && !Logs(v.reg.value)
    ensures ViewOk(AfterReg(v, RegMove(v.a, v.reg.value, v.claim, v.round, ok)), log)
  {
    match v.reg.value
    case AwaitOk => FirstWaitKeeps(v, ok, log);
    case ClearArrived => FirstWaitKeeps(v, ok, log);
    case ClearWaiting => FirstWaitKeeps(v, ok, log);
    case TestRegistered => LoopKeeps(v, ok, log);
    case TestShutdown => LoopKeeps(v, ok, log);
    case MarkRefresh => MarkKeeps(v, ok, log);
    case Exit => ExitKeeps(v, ok, log);
    case _ => RefreshingKeeps(v, ok, log);
  }

  lemma FirstWaitKeeps(v: View, ok: bool, log: seq<Event>)
    requires ViewOk(v, log) && v.reg.Some? && FirstWait(v.reg.value)
    ensures ViewOk(AfterReg(v, RegMove(v.a, v.reg.value, v.claim, v.round, ok)), log)
  {
  }

  lemma LoopKeeps(v: View, ok: bool, log: seq<Event>)
    requires ViewOk(v, log) && (v.reg == Some(TestRegistered) || v.reg == Some(TestShutdown))
    ensures ViewOk(AfterReg(v, RegMove(v.a, v.reg.value, v.claim, v.round, ok)), log)
  {
  }

  lemma MarkKeeps(v: View, ok: bool, log: seq<Event>)
    requires ViewOk(v, log) && v.reg == Some(MarkRefresh)
    ensures ViewOk(AfterReg(v, RegMove(v.a, MarkRefresh, v.claim, v.round, ok)), log)
  {
  }

  lemma ExitKeeps(v: View, ok: bool, log: seq<Event>)
    requires ViewOk(v, log) && v.reg == Some(Exit)
    ensures ViewOk(AfterReg(v, RegMove(v.a, Exit, v.claim, v.round, ok)), log)
  {
  }

  lemma RefreshingKeeps(v: View, ok: bool, log: seq<Event>)
    requires ViewOk(v, log) && v.reg.Some? && Refreshing(v.reg.value) && !Pending(v.reg.value)
    ensures ViewOk(AfterReg(v, RegMove(v.a, v.reg.value, v.claim, v.round, ok)), log)
  {
  }

  lemma LoggingKeeps(v: View, ok: bool, log: seq<Event>)
    requires ViewOk(v, log) && v.reg.Some? && Logs(v.reg.value)
    ensures var r := RegMove(v.a, v.reg.value, v.claim, v.round, ok);
            ViewOk(AfterReg(v, r), LogOf(log, r.entry)) && EntryOk(v, log, r.entry)
  {
    match v.reg.value
    case TellGui => TellingKeeps(v, ok, log);
    case SendRefresh => RefreshKeeps(v, ok, log);
    case _ => LeaveKeeps(v, ok, log);
  }

  lemma LeaveKeeps(v: View, ok: bool, log: seq<Event>)
    requires ViewOk(v, log) && (v.reg == Some(Leave) || v.reg == Some(LeaveUnsent))
    ensures var r := RegMove(v.a, v.reg.value, v.claim, v.round, ok);
            ViewOk(AfterReg(v, r), LogOf(log, r.entry)) && EntryOk(v, log, r.entry)
  {
  }

  lemma TellingKeeps(v: View, ok: bool, log: seq<Event>)
    requires ViewOk(v, log) && v.reg == Some(TellGui)
    ensures var r := RegMove(v.a, TellGui, v.claim, v.round, ok);
            ViewOk(AfterReg(v, r), LogOf(log, r.entry)) && EntryOk(v, log, r.entry)
  {
    LogExtends(log, ToldRegistered(v.claim), v.claim);
  }

  lemma RefreshKeeps(v: View, ok: bool, log: seq<Event>)
    requires ViewOk(v, log) && v.reg == Some(SendRefresh)
    ensures var r := RegMove(v.a, SendRefresh, v.claim, v.round, ok);
            ViewOk(AfterReg(v, r), LogOf(log, r.entry)) && EntryOk(v, log, r.entry)
  {
    LogExtends(log, RefreshSent(v.claim, v.round, ok), v.claim);
  }

  lemma UnregMoveKeeps(v: View, ok: bool, log: seq<Event>)
    requires ViewOk(v, log) && v.unreg.Some?
    ensures var r := UnregMove(v.a, v.unreg.value, v.claim, ok);
            ViewOk(AfterUnreg(v, r), LogOf(log, r.entry)) && EntryOk(v, log, r.entry)
  {
    match v.unreg.value
    case SendUnreg => SendingKeeps(v, ok, log);
    case ClearRest => ClearingKeeps(v, ok, log);
    case ClearSlot => ClosingKeeps(v, ok, log);
    case Report => ClosingKeeps(v, ok, log);
    case _ => UnregQuietKeeps(v, ok, log);
  }

  lemma UnregQuietKeeps(v: View, ok: bool, log: seq<Event>)
    requires ViewOk(v, log) && v.unreg.Some? && v.unreg.value !in {SendUnreg, ClearRest, ClearSlot, Report}
    ensures var r := UnregMove(v.a, v.unreg.value, v.claim, ok);
            ViewOk(AfterUnreg(v, r), log) && r.entry == None
  {
  }

  lemma ClosingKeeps(v: View, ok: bool, log: seq<Event>)
    requires ViewOk(v, log) && (v.unreg == Some(Report) || v.unreg == Some(ClearSlot))
    ensures var r := UnregMove(v.a, v.unreg.value, v.claim, ok);
            ViewOk(AfterUnreg(v, r), log) && r.entry == None
  {
  }

  lemma SendingKeeps(v: View, ok: bool, log: seq<Event>)
    requires ViewOk(v, log) && v.unreg == Some(SendUnreg)
    ensures var r := UnregMove(v.a, SendUnreg, v.claim, ok);
            ViewOk(AfterUnreg(v, r), LogOf(log, r.entry)) && EntryOk(v, log, r.entry)
  {
    LogExtends(log, UnregisterSent(v.claim, ok), v.claim);
  }

  lemma ClearingKeeps(v: View, ok: bool, log: seq<Event>)
    requires ViewOk(v, log) && v.unreg == Some(ClearRest)
    ensures var r := UnregMove(v.a, ClearRest, v.claim, ok);
            ViewOk(AfterUnreg(v, r), LogOf(log, r.entry)) && EntryOk(v, log, r.entry)
  {
  }

  // ---------------------------------------------------------------- one slot moves, the others stay

  /** The manager after slot p changed its view and at most one entry was logged. */
  ghost predicate SlotMoves(m: Manager, m': Manager, p: nat, v: View, entry: Option<Event>) {
    && Shape(m) && Shape(m') && p < |m.accs| && |m'.accs| == |m.accs|
    && m'.log == LogOf(m.log, entry) && m'.claims == m.claims && m'.nextClaim == m.nextClaim
    && m'.accs == m.accs[p := v.a]
    && v.a.accountId in {m.accs[p].accountId, -1} && v.a.regId in {m.accs[p].regId, -1}
    && ViewOf(m', p) == v
    && (forall q :: 0 <= q < |m.accs| && q != p ==> ViewOf(m', q) == ViewOf(m, q))
  }

  lemma SlotMovesKeeps(m: Manager, m': Manager, p: nat, v: View, entry: Option<Event>)
    requires SlotsInv(m) && SlotMoves(m, m', p, v, entry) && ThreadsOk(m')
    requires ViewOk(v, m'.log) && EntryOk(ViewOf(m, p), m.log, entry)
    ensures SlotsInv(m')
  {
    MovedViews(m, m', p, v, entry);
    MovedDistinct(m, m', p, v, entry);
    if entry.Some? {
      LawfulExtends(m.log, entry.value);
    }
  }

  lemma MovedViews(m: Manager, m': Manager, p: nat, v: View, entry: Option<Event>)
    requires Shape(m) && ViewsOk(m) && SlotsDistinct(m.accs, m.claims, m.nextClaim, m.log)
    requires SlotMoves(m, m', p, v, entry) && ViewOk(v, m'.log) && EntryOk(ViewOf(m, p), m.log, entry)
    ensures ViewsOk(m')
  {
    forall q | 0 <= q < |m'.accs|
      ensures ViewOk(ViewOf(m', q), m'.log)
    {
      if q != p && entry.Some? {
        OtherClaim(ViewOf(m, q), m.log, entry.value);
      }
    }
  }

  lemma MovedDistinct(m: Manager, m': Manager, p: nat, v: View, entry: Option<Event>)
    requires SlotsDistinct(m.accs, m.claims, m.nextClaim, m.log)
    requires SlotMoves(m, m', p, v, entry) && EntryOk(ViewOf(m, p), m.log, entry)
    ensures SlotsDistinct(m'.accs, m'.claims, m'.nextClaim, m'.log)
  {
  }

  // ---------------------------------------------------------------- steps of the threads

  /** A move of a registration thread: it keeps the IDs in its slot or, holding the lock, gives the slot up. */
  ghost predicate RegMoves(m: Manager, i: nat, r: Move<RegPc>) {
    && ThreadsOk(m) && i < |m.threads| && RegRunning(m.threads[i])
    && var a := m.accs[m.threads[i].pos];
       ((r.a.accountId, r.a.regId) == (a.accountId, a.regId) || (r.a == CLEARED && m.holder == Free))
  }

  /** An unregistration thread keeps them too, or goes on with clearing the slot. */
  ghost predicate UnregMoves(m: Manager, i: nat, r: Move<UnregPc>) {
    && ThreadsOk(m) && i < |m.threads| && UnregRunning(m.threads[i])
    && var a := m.accs[m.threads[i].pos];
       r.a.accountId in {a.accountId, -1} && r.a.regId in {a.regId, -1}
  }

  lemma RegThreadsOk(m: Manager, i: nat, r: Move<RegPc>)
    requires RegMoves(m, i, r)
    ensures ThreadsOk(RegMoved(m, i, r))
  {
  }

  /** A running registration thread's slot is in use. */
  lemma RegSlotUsed(m: Manager, i: nat)
    requires ThreadsOk(m) && ViewsOk(m) && i < |m.threads| && RegRunning(m.threads[i])
    ensures var p := m.threads[i].pos;
            && p < |m.accs| && m.accs[p].accountId != -1 && m.threads[i].claim == m.claims[p]
            && ViewOf(m, p).reg == Some(m.threads[i].pc) && ViewOf(m, p).round == m.threads[i].round
  {
    assert ViewOk(ViewOf(m, m.threads[i].pos), m.log);
  }

  lemma RegViews(m: Manager, i: nat, r: Move<RegPc>)
    requires RegMoves(m, i, r)
    ensures var p := m.threads[i].pos;
            SlotMoves(m, RegMoved(m, i, r), p, AfterReg(ViewOf(m, p), r), r.entry)
  {
  }

  lemma RegKeepsIds(a: Acc, pc: RegPc, claim: nat, round: nat, ok: bool)
    ensures var r := RegMove(a, pc, claim, round, ok);
            if pc == Leave || pc == LeaveUnsent then r.a == CLEARED
            else r.a.accountId == a.accountId && r.a.regId == a.regId
  {
  }

  lemma RegStepKeeps(m: Manager, i: nat, ok: bool)
    requires Inv(m) && Enabled(m, RegStep(i, ok))
    ensures Inv(RegStepOf(m, i, ok))
  {
    var t := m.threads[i];
    var v := ViewOf(m, t.pos);
    RegSlotUsed(m, i);
    RegMoveKeeps(v, ok, m.log);
    RegKeepsIds(m.accs[t.pos], t.pc, t.claim, t.round, ok);
    RegMovedKeeps(m, i, RegMove(m.accs[t.pos], t.pc, t.claim, t.round, ok));
  }

  lemma RegMovedKeeps(m: Manager, i: nat, r: Move<RegPc>)
    requires Inv(m) && RegMoves(m, i, r)
    requires var v := ViewOf(m, m.threads[i].pos);
             ViewOk(AfterReg(v, r), LogOf(m.log, r.entry)) && EntryOk(v, m.log, r.entry)
    ensures Inv(RegMoved(m, i, r))
  {
    var p := m.threads[i].pos;
    RegThreadsOk(m, i, r);
    RegViews(m, i, r);
    SlotMovesKeeps(m, RegMoved(m, i, r), p, AfterReg(ViewOf(m, p), r), r.entry);
    RegHolder(m, i, r);
  }

  lemma RegHolder(m: Manager, i: nat, r: Move<RegPc>)
    requires RegMoves(m, i, r) && HolderOk(m)
    ensures HolderOk(RegMoved(m, i, r))
  {
  }

  lemma UnregThreadsOk(m: Manager, i: nat, r: Move<UnregPc>)
    requires UnregMoves(m, i, r)
    ensures ThreadsOk(UnregMoved(m, i, r))
  {
  }

  lemma UnregViews(m: Manager, i: nat, r: Move<UnregPc>)
    requires UnregMoves(m, i, r)
    ensures var p := m.threads[i].pos;
            SlotMoves(m, UnregMoved(m, i, r), p, AfterUnreg(ViewOf(m, p), r), r.entry)
  {
    UnregOtherViews(m, i, r);
  }

  lemma UnregOtherViews(m: Manager, i: nat, r: Move<UnregPc>)
    requires ThreadsOk(m) && i < |m.threads| && UnregRunning(m.threads[i])
    ensures var m' := UnregMoved(m, i, r);
            && Shape(m')
            && forall q :: 0 <= q < |m.accs| && q != m.threads[i].pos ==> ViewOf(m', q) == ViewOf(m, q)
  {
  }

  lemma UnregKeepsIds(a: Acc, pc: UnregPc, claim: nat, ok: bool)
    ensures var r := UnregMove(a, pc, claim, ok);
            && r.a.accountId == (if pc == ClearSlot then -1 else a.accountId)
            && r.a.regId == (if pc == ClearRest then -1 else a.regId)
  {
  }

  /** A closer leaves a looked-up slot in use, or is about to clear the rest of it, or done. */
  lemma UnregGuarded(v: View, ok: bool, log: seq<Event>)
    requires ViewOk(v, log) && v.unreg.Some? && GuardedOk(v.a, v.unreg)
    ensures var w := AfterUnreg(v, UnregMove(v.a, v.unreg.value, v.claim, ok)); GuardedOk(w.a, w.unreg)
  {
  }

  lemma UnregStepKeeps(m: Manager, i: nat, ok: bool)
    requires Inv(m) && Enabled(m, UnregStep(i, ok))
    ensures Inv(UnregStepOf(m, i, ok))
  {
    var t := m.threads[i];
    var v := ViewOf(m, t.pos);
    assert ViewOk(v, m.log);
    UnregMoveKeeps(v, ok, m.log);
    UnregKeepsIds(m.accs[t.pos], t.upc, t.claim, ok);
    if m.holder.GuardAt? && m.holder.pos == t.pos { UnregGuarded(v, ok, m.log); }
    UnregMovedKeeps(m, i, UnregMove(m.accs[t.pos], t.upc, t.claim, ok));
  }

  lemma UnregMovedKeeps(m: Manager, i: nat, r: Move<UnregPc>)
    requires Inv(m) && UnregMoves(m, i, r)
    requires var v := ViewOf(m, m.threads[i].pos);
             && ViewOk(AfterUnreg(v, r), LogOf(m.log, r.entry)) && EntryOk(v, m.log, r.entry)
             && (m.holder.GuardAt? && m.holder.pos == m.threads[i].pos ==>
                   GuardedOk(AfterUnreg(v, r).a, AfterUnreg(v, r).unreg))
    ensures Inv(UnregMoved(m, i, r))
  {
    var p := m.threads[i].pos;
    UnregThreadsOk(m, i, r);
    UnregViews(m, i, r);
    SlotMovesKeeps(m, UnregMoved(m, i, r), p, AfterUnreg(ViewOf(m, p), r), r.entry);
    UnregHolder(m, i, r);
  }

  lemma UnregHolder(m: Manager, i: nat, r: Move<UnregPc>)
    requires UnregMoves(m, i, r) && HolderOk(m)
    requires var w := AfterUnreg(ViewOf(m, m.threads[i].pos), r);
             m.holder.GuardAt? && m.holder.pos == m.threads[i].pos ==> GuardedOk(w.a, w.unreg)
    ensures HolderOk(UnregMoved(m, i, r))
  {
    UnregViews(m, i, r);
  }

  // ---------------------------------------------------------------- the start of a registration

  lemma BeginKeeps(m: Manager, accountId: int, regId: int)
    requires Inv(m) && m.holder == Free && Strict(m, StartRegistration(accountId, regId))
    ensures Inv(Begin(m, accountId, regId))
  {
    var p := FindEmpty(m.accs);
    if FindByAccount(m.accs, accountId) == -1 && p != -1 {
      assert ViewOk(ViewOf(m, p), m.log);
      if regId == -1 {
        SlotMovesKeeps(m, Begin(m, accountId, regId), p, ViewOf(m, p).(a := CLEARED), None);
      } else {
        ClaimThreads(m, accountId, regId, p);
        ClaimViews(m, accountId, regId, p);
        ClaimDistinct(m, accountId, regId, p);
        LawfulExtends(m.log, InitialSent(m.nextClaim));
      }
    }
  }

  predicate Claims(m: Manager, accountId: int, regId: int, p: nat) {
    && Shape(m) && FindByAccount(m.accs, accountId) == -1 && p == FindEmpty(m.accs) && regId != -1
    && m.closer[p] == None && Swept(m.accs[p])
  }

  lemma ClaimThreads(m: Manager, accountId: int, regId: int, p: nat)
    requires ThreadsOk(m) && ViewsOk(m) && Claims(m, accountId, regId, p)
    ensures ThreadsOk(Begin(m, accountId, regId))
  {
    assert ViewOk(ViewOf(m, p), m.log);
    FreeSlotUnowned(m, p);
  }

  lemma FreeSlotUnowned(m: Manager, p: nat)
    requires ThreadsOk(m) && ViewsOk(m) && p < |m.accs| && m.accs[p].accountId == -1
    ensures m.owner[p] == None
  {
    assert ViewOk(ViewOf(m, p), m.log);
  }

  lemma ClaimViews(m: Manager, accountId: int, regId: int, p: nat)
    requires ThreadsOk(m) && ViewsOk(m) && Claims(m, accountId, regId, p)
    requires SlotsDistinct(m.accs, m.claims, m.nextClaim, m.log)
    ensures Shape(Begin(m, accountId, regId)) && ViewsOk(Begin(m, accountId, regId))
  {
    var m' := Begin(m, accountId, regId);
    forall q | 0 <= q < |m'.accs|
      ensures ViewOk(ViewOf(m', q), m'.log)
    {
      if q == p {
        ClaimedView(m, accountId, regId, p);
      } else {
        assert ViewOf(m', q) == ViewOf(m, q);
        OtherClaim(ViewOf(m, q), m.log, InitialSent(m.nextClaim));
      }
    }
  }

  lemma ClaimedView(m: Manager, accountId: int, regId: int, p: nat)
    requires ThreadsOk(m) && Claims(m, accountId, regId, p)
    requires SlotsDistinct(m.accs, m.claims, m.nextClaim, m.log)
    ensures var m' := Begin(m, accountId, regId); Shape(m') && ViewOk(ViewOf(m', p), m'.log)
  {
    NewClaimView(m.accs[p].(accountId := accountId, isRegistered := false, regId := regId, waitingOnRegOk := true),
                 m.nextClaim, m.log);
    ClaimedIs(m, accountId, regId, p);
  }

  lemma ClaimedIs(m: Manager, accountId: int, regId: int, p: nat)
    requires Claims(m, accountId, regId, p)
    ensures var m' := Begin(m, accountId, regId);
            var a := m.accs[p].(accountId := accountId, isRegistered := false, regId := regId, waitingOnRegOk := true);
            && Shape(m') && ViewOf(m', p) == View(a, m.nextClaim, Some(AwaitOk), 0, None)
            && m'.log == m.log + [InitialSent(m.nextClaim)]
  {
  }

  /** A new claim begins, whatever late events and guards left in the slot. */
  lemma NewClaimView(a: Acc, c: nat, log: seq<Event>)
    requires a.accountId != -1 && a.regId != -1 && !a.isRegistered && !a.isShutdown
    requires a.waitingOnRegOk && !a.waitingOnRefreshOk && !a.waitingOnUnregOk
    requires forall e :: e in log ==> e.claim < c
    ensures ViewOk(View(a, c, Some(AwaitOk), 0, None), log + [InitialSent(c)])
  {
    LogExtends(log, InitialSent(c), c);
    NothingTriedYet(log, c);
    assert Cleared(c) !in log && ToldRegistered(c) !in log && !UnregisterTried(log, c);
  }

  lemma ClaimDistinct(m: Manager, accountId: int, regId: int, p: nat)
    requires SlotsDistinct(m.accs, m.claims, m.nextClaim, m.log) && Claims(m, accountId, regId, p)
    ensures var m' := Begin(m, accountId, regId); SlotsDistinct(m'.accs, m'.claims, m'.nextClaim, m'.log)
  {
  }

  // ---------------------------------------------------------------- the guard of an unregistration

  lemma LookAccountUpKeeps(m: Manager, accountId: int)
    requires Inv(m) && m.holder == Free && accountId != -1
    ensures Inv(LookAccountUp(m, accountId))
  {
    var p := FindByAccount(m.accs, accountId);
    if p != -1 { LockChanges(m, GuardAt(accountId, p)); }
  }

  lemma LockChanges(m: Manager, holder: Holder)
    requires SlotsInv(m)
    ensures SlotsInv(m.(holder := holder))
  {
    var m' := m.(holder := holder);
    forall p | 0 <= p < |m'.accs|
      ensures ViewOk(ViewOf(m', p), m'.log)
    {
      assert ViewOf(m', p) == ViewOf(m, p);
    }
  }

  /** A slot whose guard is open has no unregistration thread at work, looked up long before or not. */
  lemma NoCloser(m: Manager, accountId: int, p: nat)
    requires Inv(m) && m.holder == GuardAt(accountId, p) && !m.accs[p].doShutdown && !m.accs[p].isShutdown
    ensures m.closer[p] == None
  {
    assert ViewOk(ViewOf(m, p), m.log);
  }

  lemma PassGuardKeeps(m: Manager)
    requires Inv(m) && Enabled(m, FinishGuard)
    ensures Inv(PassGuard(m, m.holder.accountId, m.holder.pos))
  {
    var accountId, p := m.holder.accountId, m.holder.pos;
    if m.accs[p].doShutdown || m.accs[p].isShutdown {
      LockChanges(m, Free);
    } else {
      var v := ViewOf(m, p);
      NoCloser(m, accountId, p);
      PassedThreads(m, accountId, p);
      PassedView(v, m.log);
      SlotMovesKeeps(m, PassGuard(m, accountId, p), p, v.(a := v.a.(doShutdown := true), unreg := Some(Poll)), None);
    }
  }

  lemma PassedView(v: View, log: seq<Event>)
    requires ViewOk(v, log) && v.unreg == None && !v.a.doShutdown && !v.a.isShutdown
    ensures ViewOk(v.(a := v.a.(doShutdown := true), unreg := Some(Poll)), log)
  {
  }

  lemma PassedThreads(m: Manager, accountId: int, p: nat)
    requires ThreadsOk(m) && p < |m.accs| && m.closer[p] == None && !m.accs[p].doShutdown && !m.accs[p].isShutdown
    ensures var m', v := PassGuard(m, accountId, p), ViewOf(m, p);
            ThreadsOk(m') && SlotMoves(m, m', p, v.(a := v.a.(doShutdown := true), unreg := Some(Poll)), None)
  {
  }

  // ---------------------------------------------------------------- events

  lemma LookEventUpKeeps(m: Manager, regId: int, kind: SipType)
    requires Inv(m) && m.holder == Free && regId != -1
    ensures Inv(LookEventUp(m, regId, kind))
  {
    var p := FindByRegId(m.accs, regId);
    if p != -1 {
      var v := ViewOf(m, p);
      assert ViewOk(v, m.log);
      var entry := if IsPositive(kind) then Some(Positive(v.claim)) else None;
      PositiveKeeps(v, m.log);
      LookEventUpMoves(m, regId, kind, p);
      SlotMovesKeeps(m, LookEventUp(m, regId, kind), p, v, entry);
    }
  }

  lemma LookEventUpMoves(m: Manager, regId: int, kind: SipType, p: nat)
    requires ThreadsOk(m) && FindByRegId(m.accs, regId) == p
    ensures var m', v := LookEventUp(m, regId, kind), ViewOf(m, p);
            ThreadsOk(m') && SlotMoves(m, m', p, v, if IsPositive(kind) then Some(Positive(v.claim)) else None)
  {
  }

  lemma PositiveKeeps(v: View, log: seq<Event>)
    requires ViewOk(v, log) && v.a.regId != -1
    ensures ViewOk(v, log + [Positive(v.claim)]) && Allowed(log, Positive(v.claim))
  {
    LogExtends(log, Positive(v.claim), v.claim);
  }

  lemma BookEventKeeps(m: Manager)
    requires Inv(m) && Enabled(m, FinishEvent)
    ensures Inv(BookEvent(m, m.holder.pos, m.holder.kind))
  {
    var p, kind := m.holder.pos, m.holder.kind;
    var v := ViewOf(m, p);
    assert ViewOk(v, m.log);
    EventKeeps(v, m.log, kind);
    EventKeepsIds(v.a, kind);
    SlotWritten(m, p, AfterEvent(v.a, kind), Free);
    SlotMovesKeeps(m, BookEvent(m, p, kind), p, v.(a := AfterEvent(v.a, kind)), None);
  }

  /** The lock holder writes other fields of a slot. */
  lemma SlotWritten(m: Manager, p: nat, a: Acc, holder: Holder)
    requires ThreadsOk(m) && p < |m.accs| && a.accountId == m.accs[p].accountId && a.regId == m.accs[p].regId
    ensures var m' := m.(accs := m.accs[p := a], holder := holder);
            ThreadsOk(m') && SlotMoves(m, m', p, ViewOf(m, p).(a := a), None)
  {
  }

  lemma EventKeepsIds(a: Acc, kind: SipType)
    ensures AfterEvent(a, kind).accountId == a.accountId && AfterEvent(a, kind).regId == a.regId
  {
  }

  lemma EventKeeps(v: View, log: seq<Event>, kind: SipType)
    requires ViewOk(v, log) && (IsPositive(kind) ==> Positive(v.claim) in log)
    ensures ViewOk(v.(a := AfterEvent(v.a, kind)), log)
  {
  }

  lemma MuteKeeps(m: Manager)
    requires Inv(m)
    ensures Inv(m.(accs := Muted(m.accs)))
  {
    var m' := m.(accs := Muted(m.accs));
    forall p | 0 <= p < |m'.accs|
      ensures ViewOk(ViewOf(m', p), m'.log)
    {
      assert ViewOk(ViewOf(m, p), m.log);
    }
  }

  lemma MuteSlotKeeps(m: Manager, p: nat)
    requires Inv(m) && m.holder == Free && p < |m.accs|
    ensures Inv(m.(accs := m.accs[p := m.accs[p].(informGui := false)]))
  {
    var v, a := ViewOf(m, p), m.accs[p].(informGui := false);
    assert ViewOk(v, m.log);
    MutedView(v, m.log);
    SlotWritten(m, p, a, Free);
    SlotMovesKeeps(m, m.(accs := m.accs[p := a], holder := Free), p, v.(a := a), None);
  }

  lemma MutedView(v: View, log: seq<Event>)
    requires ViewOk(v, log)
    ensures ViewOk(v.(a := v.a.(informGui := false)), log)
  {
  }

  /** Nothing happens in between: then the two steps of each locked section compute what it computes on the table. */
  lemma LockedSections(m: Manager, accountId: int, regId: int, kind: SipType)
    requires Shape(m) && m.holder == Free
    ensures var found := LookEventUp(m, regId, kind);
            (if found.holder.EventAt? then BookEvent(found, found.holder.pos, kind) else found).accs
            == Receive(m.accs, regId, kind)
    ensures var found := LookAccountUp(m, accountId);
            (if found.holder.GuardAt? then PassGuard(found, accountId, found.holder.pos) else found).accs
            == RequestShutdown(m.accs, accountId).0
  {
  }

  // ---------------------------------------------------------------- every run

  lemma StepKeeps(m: Manager, a: Action)
    requires Inv(m) && Enabled(m, a) && Strict(m, a)
    ensures Inv(Fire(m, a))
  {
    match a
    case StartRegistration(accountId, regId) => BeginKeeps(m, accountId, regId);
    case StartUnregistration(accountId) => LookAccountUpKeeps(m, accountId);
    case FinishGuard => PassGuardKeeps(m);
    case ReceiveEvent(regId, kind) => LookEventUpKeeps(m, regId, kind);
    case FinishEvent => BookEventKeeps(m);
    case MuteAll => MuteKeeps(m);
    case MuteSlot(p) => MuteSlotKeeps(m, p);
    case RegStep(i, ok) => RegStepKeeps(m, i, ok);
    case UnregStep(i, ok) => UnregStepKeeps(m, i, ok);
  }

  lemma {:induction false} RunKeeps(n: nat, actions: seq<Action>)
    ensures Inv(Execute(Boot(n), actions))
    decreases |actions|
  {
    if actions == [] {
      BootInv(n);
    } else {
      var before, a := actions[..|actions| - 1], actions[|actions| - 1];
      RunKeeps(n, before);
      var m := Execute(Boot(n), before);
      if Enabled(m, a) && Strict(m, a) {
        StepKeeps(m, a);
      }
    }
  }

  // ---------------------------------------------------------------- what follows for every run

  /** At most one registration thread at work on a slot, and at most one unregistration thread past the guard. */
  lemma OneThreadPerSlot(n: nat, actions: seq<Action>, i: nat, j: nat)
    requires var m := Execute(Boot(n), actions); i < j < |m.threads| && m.threads[i].pos == m.threads[j].pos
    ensures var m := Execute(Boot(n), actions);
            && !(RegRunning(m.threads[i]) && RegRunning(m.threads[j]))
            && !(UnregRunning(m.threads[i]) && UnregRunning(m.threads[j]))
  {
    RunKeeps(n, actions);
  }

  /**
   No refresh is tried after the REGISTER with expires 0 of the same claim, which is tried once; refreshes have
   increasing numbers; one clear, and no REGISTER after it.
   */
  ghost predicate HandedOver(x: Event, y: Event) {
    x.claim == y.claim ==>
      && !(x.UnregisterSent? && (y.RefreshSent? || y.UnregisterSent?))
      && (x.RefreshSent? && y.RefreshSent? ==> x.round < y.round)
      && !(x.Cleared? && (y.Cleared? || IsRegister(y)))
      && !(x.ToldRegistered? && y.ToldRegistered?)
  }

  lemma HandoverSafety(n: nat, actions: seq<Action>)
    ensures var log := Execute(Boot(n), actions).log;
            Lawful(log) && forall i, j :: 0 <= i < j < |log| ==> HandedOver(log[i], log[j])
  {
    RunKeeps(n, actions);
    var log := Execute(Boot(n), actions).log;
    forall i, j | 0 <= i < j < |log|
      ensures HandedOver(log[i], log[j])
    {
      LawfulPair(log, i, j);
    }
  }

  lemma LawfulPair(log: seq<Event>, i: nat, j: nat)
    requires Lawful(log) && i < j < |log|
    ensures HandedOver(log[i], log[j])
  {
    assert Allowed(log[..j], log[j]);
    assert log[..j][i] == log[i] && log[i] in log[..j];
    if log[i].RefreshSent? && log[j].RefreshSent? && log[i].claim == log[j].claim {
      assert Allowed(log[..i], log[i]);
      NumbersGrow(log, i, j);
    }
  }

  lemma {:induction false} NumbersGrow(log: seq<Event>, i: nat, j: nat)
    requires i < j <= |log| && log[i].RefreshSent?
    ensures RefreshesTried(log[..j], log[i].claim) > RefreshesTried(log[..i], log[i].claim)
    decreases j
  {
    assert log[..j][..j - 1] == log[..j - 1];
    if i < j - 1 { NumbersGrow(log, i, j - 1); }
  }

  lemma ToldAfterPositive(n: nat, actions: seq<Action>, i: nat)
    requires var log := Execute(Boot(n), actions).log; i < |log| && log[i].ToldRegistered?
    ensures var log := Execute(Boot(n), actions).log; exists j :: 0 <= j < i && log[j] == Positive(log[i].claim)
  {
    RunKeeps(n, actions);
    var log := Execute(Boot(n), actions).log;
    assert Allowed(log[..i], log[i]);
    var j :| 0 <= j < i && log[..i][j] == Positive(log[i].claim);
    assert log[j] == log[..i][j];
  }

  // ---------------------------------------------------------------- which REGISTER an event is booked for

  /** The REGISTER that the waiting flags of a slot announce. */
  function Announced(m: Manager, p: nat): Option<Event>
    requires Shape(m) && p < |m.accs|
  {
    var a, c := m.accs[p], m.claims[p];
    if a.waitingOnRegOk then Some(InitialSent(c))
    else if a.waitingOnRefreshOk then Some(RefreshSent(c, RoundOf(m, p), true))
    else if a.waitingOnUnregOk then Some(UnregisterSent(c, true))
    else None
  }

  /** A flag is set for a REGISTER that is still to be sent, or that the stack failed to send. */
  predicate NotSent(m: Manager, p: nat)
    requires Shape(m) && p < |m.accs|
  {
    || RegPcOf(m, p) == Some(SendRefresh) || RegPcOf(m, p) == Some(LeaveUnsent)
    || UnregPcOf(m, p) == Some(SendUnreg) || (m.accs[p].waitingOnUnregOk && UnregPcOf(m, p) == None)
  }

  /**
   At any moment used slots hold distinct accounts and at most one waiting flag of a slot is set; the REGISTER
   it announces is the one sent last for the claim exactly if the thread has sent it.
   */
  ghost predicate WaitingOk(m: Manager, p: nat)
    requires Shape(m) && p < |m.accs|
  {
    var a := m.accs[p];
    && (forall q :: 0 <= q < |m.accs| && q != p && a.accountId != -1 ==> m.accs[q].accountId != a.accountId)
    && !(a.waitingOnRegOk && a.waitingOnRefreshOk) && !(a.waitingOnRegOk && a.waitingOnUnregOk)
    && !(a.waitingOnRefreshOk && a.waitingOnUnregOk)
    && (Announced(m, p).Some? ==> (Announced(m, p) == LastSent(m.log, m.claims[p]) <==> !NotSent(m, p)))
    && (NotSent(m, p) ==> Announced(m, p).Some?)
  }

  lemma WaitingNamesRequest(n: nat, actions: seq<Action>, p: nat)
    requires p < |Execute(Boot(n), actions).accs|
    ensures Shape(Execute(Boot(n), actions)) && WaitingOk(Execute(Boot(n), actions), p)
  {
    RunKeeps(n, actions);
    FlagsNameRequest(Execute(Boot(n), actions), p);
  }

  lemma FlagsNameRequest(m: Manager, p: nat)
    requires SlotsInv(m) && p < |m.accs|
    ensures WaitingOk(m, p)
  {
    assert ViewOk(ViewOf(m, p), m.log);
    LastSentIsLogged(m.log, m.claims[p]);
  }

  /** What an answer to this REGISTER means for a slot. */
  function Answered(a: Acc, request: Event, ok: bool): Acc
    requires IsRegister(request)
  {
    var b :=
      match request
      case InitialSent(_) => a.(isRegistered := ok)
      case RefreshSent(_, _, _) =>
        if ok then a.(isRefreshed := true) else a.(isRegistered := false, isRefreshed := false)
      case UnregisterSent(_, _) => a.(isRegistered := !ok);
    b.(eventArrived := true)
  }

  /**
   A success or failure is booked for the REGISTER that the flags announce when the event is dealt with; that
   is the one sent last, so the one it can answer, exactly if the announced one has been sent.
   */
  ghost predicate BookedFor(m: Manager, p: nat, kind: SipType)
    requires Shape(m) && p < |m.accs|
  {
    var a' := BookEvent(m, p, kind).accs[p];
    match Announced(m, p)
    case None => a' == m.accs[p].(eventArrived := true)
    case Some(request) =>
      && a' == Answered(m.accs[p], request, kind == RegistrationSuccess)
      && (LastSent(m.log, m.claims[p]) == Some(request) <==> !NotSent(m, p))
  }

  lemma EventAnswersRequest(n: nat, actions: seq<Action>)
    requires var m := Execute(Boot(n), actions);
             Enabled(m, FinishEvent) && m.holder.kind in {RegistrationSuccess, RegistrationFailure}
    ensures var m := Execute(Boot(n), actions); BookedFor(m, m.holder.pos, m.holder.kind)
  {
    RunKeeps(n, actions);
    var m := Execute(Boot(n), actions);
    FlagsNameRequest(m, m.holder.pos);
  }
}
