/**
 What every run of one call keeps: the order of SIP messages, the language of statuses told to the
 GUI, the transaction table and the dialog ID.
 */
module CallSafety {
  import opened Options
  import opened Transactions
  import opened Events
  import opened CallMachine

  // ---------------------------------------------------------------- which entry may follow which history

  predicate IsInviteEvent(e: Entry) {
    e.Saw? && e.trigger.SipReceive? && e.trigger.sip.kind == CallInvite
  }

  predicate IsAckEvent(e: Entry) {
    e.Saw? && e.trigger.SipReceive? && e.trigger.sip.kind == CallAck
  }

  predicate IsSuccessResponse(e: Entry) {
    e.Saw? && e.trigger.SipReceive? && 200 <= e.trigger.sip.statusCode <= 299
  }

  predicate HasDialog(e: Entry, dialogId: int) {
    e.Saw? && e.trigger.SipReceive? && e.trigger.sip.dialogId == dialogId
  }

  predicate IsInvite(e: Entry) { e.Did? && e.effect.Invite? }

  predicate IsAck(e: Entry) { e.Did? && e.effect.Ack? }

  predicate IsTeardown(e: Entry) { e.Did? && (e.effect.Cancel? || e.effect.Decline? || e.effect.Bye?) }

  ghost predicate NoInvite(h: seq<Entry>) { forall e :: e in h ==> !IsInvite(e) }

  ghost predicate NoAck(h: seq<Entry>) { forall e :: e in h ==> !IsAck(e) }

  ghost predicate NoTeardown(h: seq<Entry>) { forall e :: e in h ==> !IsTeardown(e) }

  ghost predicate SawAck(h: seq<Entry>) { exists e :: e in h && IsAckEvent(e) }

  ghost predicate SawDialog(h: seq<Entry>, dialogId: int) { exists e :: e in h && HasDialog(e, dialogId) }

  ghost predicate AckSent(h: seq<Entry>) { exists d :: Did(Ack(d, true)) in h }

  ghost predicate Rang(h: seq<Entry>) { exists id :: Did(Provisional180(id, true)) in h }

  /** The first INVITE event in the history has this transaction ID. */
  ghost predicate CreatedBy(h: seq<Entry>, id: int) {
    exists i :: 0 <= i < |h| && IsInviteEvent(h[i]) && h[i].trigger.sip.transactionId == id &&
                forall k :: 0 <= k < i ==> !IsInviteEvent(h[k])
  }

  /**
   The protocol rules of a call, one per message. They follow RFC 3261: an ACK is sent by the caller
   on a 2xx only (section 13.2.2.4), a CANCEL needs a provisional response (section 9.1), and the
   callee may send BYE only once the ACK has arrived (section 15).
   */
  ghost predicate Allowed(h: seq<Entry>, e: Entry) {
    match e
    case Saw(_) => true
    case Did(Invite(_, _, _)) => NoInvite(h)
    case Did(Provisional180(id, _)) => id != -1 && CreatedBy(h, id)
    case Did(Ok200(_, id, _)) => id != -1 && CreatedBy(h, id) && Did(Provisional180(id, true)) in h
    case Did(Ack(_, _)) => !NoInvite(h) && NoAck(h) && h != [] && IsSuccessResponse(h[|h| - 1])
    case Did(Cancel(_, dialogId, _)) => NoTeardown(h) && dialogId > 0 && SawDialog(h, dialogId)
    case Did(Decline(_, _, _)) => NoTeardown(h) && Rang(h)
    case Did(Bye(_, _, _)) => NoTeardown(h) && if NoInvite(h) then SawAck(h) else AckSent(h)
    case Did(Status(_, status, _)) =>
      status == CsAccepted ==> if NoInvite(h) then SawAck(h) else AckSent(h)
    case Did(_) => true
  }

  ghost predicate Lawful(trace: seq<Entry>) {
    forall i :: 0 <= i < |trace| ==> Allowed(trace[..i], trace[i])
  }

  // ---------------------------------------------------------------- a summary of a history

  /** Where a status word stands: nothing, progress only, one outcome, TERMINATED, or none of these. */
  datatype Word = Silent | Progressing | Decided(progress: bool, status: CallStatus) | Ended(before: Word) | Wrong

  function NextWord(w: Word, s: CallStatus): Word {
    match w
    case Silent =>
      if s in {CsTrying, CsRinging} then Progressing
      else if s == CsTerminated then Ended(Silent) else Decided(false, s)
    case Progressing =>
      if s in {CsTrying, CsRinging} then Progressing
      else if s == CsTerminated then Ended(Progressing) else Decided(true, s)
    case Decided(_, _) => if s == CsTerminated then Ended(w) else Wrong
    case _ => Wrong
  }

  datatype Facts = Facts(success: bool, invited: bool, ack: bool, ackSent: bool, sawAck: bool, teardown: bool,
                         dialogs: set<int>, rang: set<int>, creator: Option<int>, word: Word)

  function Note(f: Facts, e: Entry): Facts {
    match e
    case Saw(SipReceive(sip)) =>
      f.(success := 200 <= sip.statusCode <= 299,
         sawAck := f.sawAck || sip.kind == CallAck,
         dialogs := f.dialogs + {sip.dialogId},
         creator := if f.creator == None && sip.kind == CallInvite then Some(sip.transactionId) else f.creator)
    case Saw(_) => f.(success := false)
    case Did(effect) =>
      var f := f.(success := false);
      match effect
      case Invite(_, _, _) => f.(invited := true)
      case Ack(_, ok) => f.(ack := true, ackSent := f.ackSent || ok)
      case Cancel(_, _, _) => f.(teardown := true)
      case Decline(_, _, _) => f.(teardown := true)
      case Bye(_, _, _) => f.(teardown := true)
      case Provisional180(id, ok) => if ok then f.(rang := f.rang + {id}) else f
      case Status(_, s, ok) => if ok then f.(word := NextWord(f.word, s)) else f
      case _ => f
  }

  function FactsOf(h: seq<Entry>): Facts
    decreases |h|
  {
    if h == [] then Facts(false, false, false, false, false, false, {}, {}, None, Silent)
    else Note(FactsOf(h[..|h| - 1]), h[|h| - 1])
  }

  lemma FactsExtend(h: seq<Entry>, e: Entry)
    ensures FactsOf(h + [e]) == Note(FactsOf(h), e)
  {
    assert (h + [e])[..|h|] == h;
  }

  lemma NoteFlags(f: Facts, e: Entry)
    ensures var g := Note(f, e);
            && g.success == IsSuccessResponse(e) && g.invited == (f.invited || IsInvite(e))
            && g.ack == (f.ack || IsAck(e))
  {
    NoteSuccess(f, e);
    NoteInvited(f, e);
  }

  lemma NoteSuccess(f: Facts, e: Entry)
    ensures Note(f, e).success == IsSuccessResponse(e)
  {
    match e
    case Saw(SipReceive(_)) =>
    case Saw(_) =>
    case Did(_) =>
  }

  lemma NoteInvited(f: Facts, e: Entry)
    ensures Note(f, e).invited == (f.invited || IsInvite(e))
  {
  }

  lemma NoteMoreFlags(f: Facts, e: Entry)
    ensures var g := Note(f, e);
            && g.teardown == (f.teardown || IsTeardown(e))
            && g.ackSent == (f.ackSent || (e.Did? && e.effect.Ack? && e.effect.ok))
            && g.sawAck == (f.sawAck || IsAckEvent(e))
  {
  }

  lemma NoteSets(f: Facts, e: Entry)
    ensures forall d :: d in Note(f, e).dialogs <==> d in f.dialogs || HasDialog(e, d)
    ensures forall id :: id in Note(f, e).rang <==> id in f.rang || e == Did(Provisional180(id, true))
  {
  }

  ghost predicate FlagsMatch(f: Facts, h: seq<Entry>) {
    && (f.success <==> h != [] && IsSuccessResponse(h[|h| - 1]))
    && (f.invited <==> !NoInvite(h)) && (f.ack <==> !NoAck(h)) && (f.teardown <==> !NoTeardown(h))
    && (f.ackSent <==> AckSent(h)) && (f.sawAck <==> SawAck(h))
  }

  /** The summary is the history, as far as the rules look at it. */
  lemma {:induction false} FactsMeaning(h: seq<Entry>)
    ensures FlagsMatch(FactsOf(h), h)
    decreases |h|
  {
    if h != [] {
      var before, e := h[..|h| - 1], h[|h| - 1];
      FactsMeaning(before);
      FlagsExtend(FactsOf(before), before, e);
      assert h == before + [e];
    }
  }

  lemma FlagsExtend(f: Facts, h: seq<Entry>, e: Entry)
    requires FlagsMatch(f, h)
    ensures FlagsMatch(Note(f, e), h + [e])
  {
    NoteFlags(f, e);
    NoteMoreFlags(f, e);
    MembersExtend(h, e);
  }

  ghost predicate SetsMatch(f: Facts, h: seq<Entry>) {
    && (forall d :: d in f.dialogs <==> SawDialog(h, d))
    && (forall id :: id in f.rang <==> Did(Provisional180(id, true)) in h)
  }

  lemma {:induction false} SetsMeaning(h: seq<Entry>)
    ensures SetsMatch(FactsOf(h), h)
    decreases |h|
  {
    if h != [] {
      var before, e := h[..|h| - 1], h[|h| - 1];
      SetsMeaning(before);
      SetsExtend(FactsOf(before), before, e);
      assert h == before + [e];
    }
  }

  lemma SetsExtend(f: Facts, h: seq<Entry>, e: Entry)
    requires SetsMatch(f, h)
    ensures SetsMatch(Note(f, e), h + [e])
  {
    NoteSets(f, e);
    DialogsExtend(h, e);
  }

  lemma MembersExtend(h: seq<Entry>, e: Entry)
    ensures NoInvite(h + [e]) <==> NoInvite(h) && !IsInvite(e)
    ensures NoAck(h + [e]) <==> NoAck(h) && !IsAck(e)
    ensures NoTeardown(h + [e]) <==> NoTeardown(h) && !IsTeardown(e)
    ensures AckSent(h + [e]) <==> AckSent(h) || (e.Did? && e.effect.Ack? && e.effect.ok)
    ensures SawAck(h + [e]) <==> SawAck(h) || IsAckEvent(e)
  {
    var g := h + [e];
    assert forall x :: x in g <==> x in h || x == e;
    if AckSent(h) { var d :| Did(Ack(d, true)) in h; assert Did(Ack(d, true)) in g; }
    if e.Did? && e.effect.Ack? && e.effect.ok { assert Did(Ack(e.effect.dialogId, true)) in g; }
    if SawAck(h) { var x :| x in h && IsAckEvent(x); assert x in g; }
  }

  lemma DialogsExtend(h: seq<Entry>, e: Entry)
    ensures forall d :: SawDialog(h + [e], d) <==> SawDialog(h, d) || HasDialog(e, d)
  {
    var g := h + [e];
    assert forall x :: x in g <==> x in h || x == e;
    forall d
      ensures SawDialog(g, d) <==> SawDialog(h, d) || HasDialog(e, d)
    {
      if SawDialog(h, d) { var x :| x in h && HasDialog(x, d); assert x in g; }
    }
  }

  ghost predicate CreatorMatch(f: Facts, h: seq<Entry>) {
    match f.creator
    case None => forall i :: 0 <= i < |h| ==> !IsInviteEvent(h[i])
    case Some(id) => CreatedBy(h, id)
  }

  lemma {:induction false} CreatorMeaning(h: seq<Entry>)
    ensures CreatorMatch(FactsOf(h), h)
    decreases |h|
  {
    if h != [] {
      var before, e := h[..|h| - 1], h[|h| - 1];
      CreatorMeaning(before);
      CreatorExtends(FactsOf(before), before, e);
      assert h == before + [e];
    }
  }

  lemma CreatorExtends(f: Facts, h: seq<Entry>, e: Entry)
    requires CreatorMatch(f, h)
    ensures CreatorMatch(Note(f, e), h + [e])
  {
    var g := h + [e];
    NoteCreator(f, e);
    if f.creator.Some? {
      CreatedStays(h, e, f.creator.value);
    } else if IsInviteEvent(e) {
      assert IsInviteEvent(g[|h|]);
    }
  }

  lemma NoteCreator(f: Facts, e: Entry)
    ensures Note(f, e).creator ==
              if f.creator.Some? then f.creator
              else if IsInviteEvent(e) then Some(e.trigger.sip.transactionId) else None
  {
  }

  lemma CreatedStays(h: seq<Entry>, e: Entry, id: int)
    requires CreatedBy(h, id)
    ensures CreatedBy(h + [e], id)
  {
    var g := h + [e];
    assert forall k :: 0 <= k < |h| ==> g[k] == h[k];
    var i :| 0 <= i < |h| && IsInviteEvent(h[i]) && h[i].trigger.sip.transactionId == id &&
             forall k :: 0 <= k < i ==> !IsInviteEvent(h[k]);
    assert IsInviteEvent(g[i]);
  }

  /** The protocol rules read off the summary. */
  predicate AllowedNext(f: Facts, e: Effect) {
    match e
    case Invite(_, _, _) => !f.invited
    case Provisional180(id, _) => id != -1 && f.creator == Some(id)
    case Ok200(_, id, _) => id != -1 && f.creator == Some(id) && id in f.rang
    case Ack(_, _) => f.invited && !f.ack && f.success
    case Cancel(_, dialogId, _) => !f.teardown && dialogId > 0 && dialogId in f.dialogs
    case Decline(_, _, _) => !f.teardown && f.creator.Some? && f.creator.value in f.rang
    case Bye(_, _, _) => !f.teardown && if f.invited then f.ackSent else f.sawAck
    case Status(_, status, _) => status == CsAccepted ==> if f.invited then f.ackSent else f.sawAck
    case _ => true
  }

  lemma LawfulExtends(h: seq<Entry>, e: Entry)
    requires Lawful(h) && (e.Did? ==> AllowedNext(FactsOf(h), e.effect))
    ensures Lawful(h + [e])
  {
    FactsMeaning(h);
    SetsMeaning(h);
    CreatorMeaning(h);
    assert Allowed(h, e) by {
      if e.Did? && e.effect.Decline? {
        assert Did(Provisional180(FactsOf(h).creator.value, true)) in h;
      }
    }
    forall i | 0 <= i < |h + [e]|
      ensures Allowed((h + [e])[..i], (h + [e])[i])
    {
      assert (h + [e])[..i] == h[..i];
      if i == |h| { assert h[..i] == h; }
    }
  }

  // ---------------------------------------------------------------- the language of statuses

  /** The statuses the GUI accepted, in order. */
  function Statuses(h: seq<Entry>): seq<CallStatus>
    decreases |h|
  {
    if h == [] then []
    else
      var e, w := h[|h| - 1], Statuses(h[..|h| - 1]);
      if e.Did? && e.effect.Status? && e.effect.ok then w + [e.effect.status] else w
  }

  const NO_PROGRESS: set<CallStatus> := {}
  const OUTGOING_PROGRESS := {CsTrying, CsRinging}
  const OUTGOING_OUTCOME := {CsAccepted, CsDeclined, CsUnreachable}
  const INCOMING_OUTCOME := {CsAccepted, CsCancelled}

  /** progress* outcome? */
  ghost predicate Body(w: seq<CallStatus>, progress: set<CallStatus>, outcome: set<CallStatus>) {
    exists n :: BodyAt(w, n, progress, outcome)
  }

  /** The first n statuses are progress; at most one more follows, an outcome. */
  predicate BodyAt(w: seq<CallStatus>, n: int, progress: set<CallStatus>, outcome: set<CallStatus>) {
    0 <= n <= |w| <= n + 1 && (forall i :: 0 <= i < n ==> w[i] in progress) && (n < |w| ==> w[n] in outcome)
  }

  /** progress* outcome? TERMINATED */
  ghost predicate Complete(w: seq<CallStatus>, progress: set<CallStatus>, outcome: set<CallStatus>) {
    w != [] && w[|w| - 1] == CsTerminated && Body(w[..|w| - 1], progress, outcome)
  }

  ghost predicate OutgoingWord(w: seq<CallStatus>) {
    Body(w, OUTGOING_PROGRESS, OUTGOING_OUTCOME) || Complete(w, OUTGOING_PROGRESS, OUTGOING_OUTCOME)
  }

  ghost predicate IncomingWord(w: seq<CallStatus>) {
    Body(w, NO_PROGRESS, INCOMING_OUTCOME) || Complete(w, NO_PROGRESS, INCOMING_OUTCOME)
  }

  /** The regular expression a summary word stands for. */
  ghost predicate Denotes(word: Word, w: seq<CallStatus>) {
    match word
    case Silent => w == []
    case Progressing => w != [] && forall i :: 0 <= i < |w| ==> w[i] in OUTGOING_PROGRESS
    case Decided(progress, s) =>
      w != [] && w[|w| - 1] == s && (!progress ==> |w| == 1) &&
      (forall i :: 0 <= i < |w| - 1 ==> w[i] in OUTGOING_PROGRESS)
    case Ended(before) => w != [] && w[|w| - 1] == CsTerminated && Denotes(before, w[..|w| - 1])
    case Wrong => true
  }

  lemma NextDenotes(word: Word, w: seq<CallStatus>, s: CallStatus)
    requires Denotes(word, w)
    ensures Denotes(NextWord(word, s), w + [s])
  {
    assert (w + [s])[..|w|] == w;
  }

  lemma {:induction false} WordMeaning(h: seq<Entry>)
    ensures Denotes(FactsOf(h).word, Statuses(h))
    decreases |h|
  {
    if h != [] {
      WordMeaning(h[..|h| - 1]);
      var e := h[|h| - 1];
      if e.Did? && e.effect.Status? && e.effect.ok {
        NextDenotes(FactsOf(h[..|h| - 1]).word, Statuses(h[..|h| - 1]), e.effect.status);
      }
    }
  }

  lemma BodyOf(word: Word, w: seq<CallStatus>)
    requires Denotes(word, w)
    ensures word in {Silent, Progressing} || (word.Decided? && word.status in OUTGOING_OUTCOME) ==>
              Body(w, OUTGOING_PROGRESS, OUTGOING_OUTCOME)
    ensures word == Silent || (word.Decided? && !word.progress && word.status in INCOMING_OUTCOME) ==>
              Body(w, NO_PROGRESS, INCOMING_OUTCOME)
  {
    var n := if word.Decided? then |w| - 1 else |w|;
    if word in {Silent, Progressing} || (word.Decided? && word.status in OUTGOING_OUTCOME) {
      assert BodyAt(w, n, OUTGOING_PROGRESS, OUTGOING_OUTCOME);
    }
    if word == Silent || (word.Decided? && !word.progress && word.status in INCOMING_OUTCOME) {
      assert BodyAt(w, n, NO_PROGRESS, INCOMING_OUTCOME);
    }
  }

  // ---------------------------------------------------------------- the invariant

  datatype Side = Undecided | Caller | Callee

  /** Which side of the call a machine is on: the first state it enters decides. */
  function SideOf(path: seq<State>): Side {
    if |path| < 2 then Undecided else if path[1] == Checking then Caller else Callee
  }

  function SideStates(side: Side): set<State> {
    match side
    case Undecided => {Initial}
    case Caller => {Initial, Checking, Inviting, Connected, Terminating, Final}
    case Callee => {Initial, Ringing, Connecting, Connected, Terminating, Final}
  }

  ghost predicate PathOk(path: seq<State>, state: State) {
    && path != [] && path[0] == Initial && path[|path| - 1] == state
    && (forall i :: 0 <= i < |path| ==> path[i] in SideStates(SideOf(path)))
    && (forall i :: 0 < i < |path| ==> path[i] != Initial)
    && (|path| >= 2 ==> path[1] in {Checking, Ringing})
  }

  predicate BodyFor(side: Side, word: Word) {
    word == Silent ||
    (if side == Callee then word.Decided? && !word.progress && word.status in INCOMING_OUTCOME
     else word == Progressing || (word.Decided? && word.status in OUTGOING_OUTCOME))
  }

  predicate WordFits(state: State, side: Side, word: Word) {
    match state
    case Inviting => word in {Silent, Progressing}
    case Connected => BodyFor(side, word)
    case Terminating => BodyFor(side, word)
    case Final => word.Ended? && BodyFor(side, word.before)
    case _ => word == Silent
  }

  /** What a machine that still runs has done so far, state by state. */
  ghost predicate Progress(m: Machine, f: Facts) {
    var live := Live(m.info.transactions);
    && (m.state != Terminating && m.state != Final ==> !f.teardown && OnlyInvites(live))
    && match m.state
       case Initial => live == [] && !f.invited && !f.ack && f.creator == None
       case Checking => live == [] && !f.invited && !f.ack && m.info.dialogId == 0
       case Inviting => f.invited && !f.ack && (m.info.dialogId != 0 ==> m.info.dialogId in f.dialogs)
       case Ringing => Answering(live, f)
       case Connecting => Answering(live, f)
       case Connected => if f.invited then f.ackSent else f.sawAck
       case _ => true
  }

  predicate OnlyInvites(live: Table) {
    forall i :: 0 <= i < |live| ==> live[i].kind == INVITE_TRANSACTION
  }

  /** The INVITE that created the call is known and was answered with 180. */
  predicate Answering(live: Table, f: Facts) {
    |live| == 1 && live[0].id != -1 && !f.invited && f.creator == Some(live[0].id) && live[0].id in f.rang
  }

  /** Holds even between consuming an event and handling it. */
  ghost predicate Safe(m: Machine) {
    && PathOk(m.path, m.state)
    && Lawful(m.trace)
    && Proper(m.info.transactions)
    && WordFits(m.state, SideOf(m.path), FactsOf(m.trace).word)
  }

  ghost predicate Inv(m: Machine) {
    Safe(m) && (!m.failed ==> Progress(m, FactsOf(m.trace)))
  }

  lemma FreshInv(m: Machine)
    requires Fresh(m)
    ensures Inv(m)
  {
    UnusedIsProper(m.info.transactions);
  }

  // ---------------------------------------------------------------- each handler keeps it

  lemma RecordKeeps(m: Machine, e: Entry)
    requires Safe(m) && (e.Did? ==> AllowedNext(FactsOf(m.trace), e.effect))
    ensures var m' := m.(trace := m.trace + [e]);
            && Lawful(m'.trace) && FactsOf(m'.trace) == Note(FactsOf(m.trace), e)
            && ((e.Did? && e.effect.Status? && e.effect.ok) || Safe(m'))
  {
    FactsExtend(m.trace, e);
    LawfulExtends(m.trace, e);
  }

  lemma GoToKeeps(path: seq<State>, state: State, next: State)
    requires PathOk(path, state) && next != Initial
    requires state == Initial ==> next in {Checking, Ringing}
    requires state != Initial ==> next in SideStates(SideOf(path))
    ensures PathOk(path + [next], next)
    ensures state != Initial ==> SideOf(path + [next]) == SideOf(path)
    ensures state == Initial ==> SideOf(path + [next]) == if next == Checking then Caller else Callee
  {
    assert path[|path| - 1] == state;
    var p := path + [next];
    assert forall i :: 0 <= i < |path| ==> p[i] == path[i];
  }

  /** A machine in a state only one side enters is on that side. */
  lemma DecidedBy(path: seq<State>, state: State)
    requires PathOk(path, state) && state != Initial
    ensures SideOf(path) != Undecided
    ensures state in {Checking, Inviting} ==> SideOf(path) == Caller
    ensures state in {Ringing, Connecting} ==> SideOf(path) == Callee
  {
    assert path[|path| - 1] in SideStates(SideOf(path));
  }

  /** Making an allowed call and, if it succeeded, entering a state of the same side. */
  lemma TryKeeps(m: Machine, e: Effect, ok: bool, next: State)
    requires Safe(m) && AllowedNext(FactsOf(m.trace), e) && next != Initial
    requires m.state == Initial ==> next in {Checking, Ringing}
    requires m.state != Initial ==> next in SideStates(SideOf(m.path))
    requires e.Status? ==> e.ok == ok
    requires var side := SideOf(m.path + [next]);
             ok ==> WordFits(next, side, Note(FactsOf(m.trace), Did(e)).word)
    ensures Safe(Try(m, e, ok, next))
    ensures FactsOf(Try(m, e, ok, next).trace) == Note(FactsOf(m.trace), Did(e))
  {
    RecordKeeps(m, Did(e));
    GoToKeeps(m.path, m.state, next);
  }

  lemma SeeKeeps(m: Machine, t: Trigger)
    requires Safe(m)
    ensures var seen := m.(trace := m.trace + [Saw(t)]);
            Safe(seen) && FactsOf(seen.trace) == Note(FactsOf(m.trace), Saw(t))
  {
    RecordKeeps(m, Saw(t));
  }

  lemma InitialKeeps(m: Machine, t: Trigger, a: Answers, room: bool)
    requires Inv(m) && !m.failed && m.state == Initial
    ensures Inv(Step(m, t, a, room).m)
  {
    SeeKeeps(m, t);
    var seen := m.(trace := m.trace + [Saw(t)]);
    if t.SipReceive? && t.sip.kind == CallInvite {
      IncomingKeeps(seen, t.sip, a);
    } else if t.GuiMakeCall? {
      GoToKeeps(m.path, Initial, Checking);
    }
  }

  lemma IncomingKeeps(m: Machine, e: SipEvent, a: Answers)
    requires Safe(m) && !m.failed && m.state == Initial && Live(m.info.transactions) == []
    requires var f := FactsOf(m.trace); !f.teardown && !f.invited && f.creator == Some(e.transactionId)
    ensures Inv(IncomingInvite(m, e, a))
  {
    var accountId := if e.toUrl.None? then -1 else a.calleeAccount;
    if accountId != -1 && e.fromUrl.Some? {
      var table := Add(m.info.transactions, e.transactionId, INVITE_TRANSACTION);
      FirstEntry(m.info.transactions, e.transactionId);
      var m1 := m.(info := m.info.(accountId := accountId, callId := a.newCallId, callee := e.toUrl,
                   caller := e.fromUrl, sipCallId := e.callId, dialogId := e.dialogId, from := None, to := None,
                   transactions := table));
      ShownKeeps(m1, IncomingCall(accountId, a.newCallId, a.gui), e.transactionId, a);
    }
  }

  /** The GUI is told of the call, and if that works the state RINGING is entered. */
  lemma ShownKeeps(m: Machine, shown: Effect, id: int, a: Answers)
    requires Safe(m) && m.state == Initial && shown.IncomingCall?
            && FindByType(m.info.transactions, INVITE_TRANSACTION) == id
    requires Live(m.info.transactions) == if id == -1 then [] else [Transaction(id, INVITE_TRANSACTION)]
    requires var f := FactsOf(m.trace); !f.teardown && !f.invited && f.creator == Some(id)
    ensures Inv(Fail(Record(m, shown)))
    ensures Inv(RingingOnEntry(Record(m, shown), a))
  {
    RecordKeeps(m, Did(shown));
    if id != -1 {
      TryKeeps(Record(m, shown), Provisional180(id, a.stack), a.stack, Ringing);
    }
  }

  /** The creating INVITE takes the first entry; with transaction ID -1 the table stays unused. */
  lemma FirstEntry(table: Table, id: int)
    requires Proper(table) && Live(table) == []
    ensures var table' := Add(table, id, INVITE_TRANSACTION);
            && Contains(table, -1) && Proper(table')
            && Live(table') == (if id == -1 then [] else [Transaction(id, INVITE_TRANSACTION)])
            && FindByType(table', INVITE_TRANSACTION) == id
  {
    assert table[0].id == -1;
    if id == -1 {
      var table' := table[0 := Transaction(id, INVITE_TRANSACTION)];
      assert FreeEntry(table) == 0;
      UnusedIsProper(table');
    } else {
      AddAppends(table, id, INVITE_TRANSACTION);
      FindIsEarliest(Add(table, id, INVITE_TRANSACTION), INVITE_TRANSACTION);
    }
  }

  lemma CheckingKeeps(m: Machine, t: Trigger, a: Answers, room: bool)
    requires Inv(m) && !m.failed && m.state == Checking
    ensures Inv(Step(m, t, a, room).m)
  {
    SeeKeeps(m, t);
    DecidedBy(m.path, m.state);
    var seen := m.(trace := m.trace + [Saw(t)]);
    if t.AccountOk? && a.accountFound {
      InviteKeeps(seen, a);
    } else if t.AccountError? {
      AccountErrorKeeps(seen, a);
    }
  }

  lemma InviteKeeps(m: Machine, a: Answers)
    requires Inv(m) && !m.failed && m.state == Checking && SideOf(m.path) == Caller && a.accountFound
    ensures Inv(CheckingState(m, AccountOk, a))
  {
    RecordKeeps(m, Did(Invite(m.info.to, m.info.from, a.inviteResult)));
    GoToKeeps(m.path, Checking, Inviting);
  }

  lemma AccountErrorKeeps(m: Machine, a: Answers)
    requires Inv(m) && !m.failed && m.state == Checking && SideOf(m.path) == Caller
    ensures Inv(CheckingState(m, AccountError, a))
  {
    TryKeeps(m, UserEvent(m.info.accountId, a.gui), a.gui, Terminating);
  }

  lemma InvitingKeeps(m: Machine, t: Trigger, a: Answers, room: bool)
    requires Inv(m) && !m.failed && m.state == Inviting
    ensures Inv(Step(m, t, a, room).m)
  {
    SeeKeeps(m, t);
    DecidedBy(m.path, m.state);
    var seen := m.(trace := m.trace + [Saw(t)]);
    if t.SipReceive? {
      InvitingSipKeeps(seen, t.sip, a);
    } else if t.GuiEndCall? {
      CancelKeeps(seen, a);
    }
  }

  lemma InvitingSipKeeps(m: Machine, e: SipEvent, a: Answers)
    requires Safe(m) && !m.failed && m.state == Inviting && SideOf(m.path) == Caller
    requires var f := FactsOf(m.trace);
             && !f.teardown && OnlyInvites(Live(m.info.transactions)) && f.invited && !f.ack
             && f.success == (200 <= e.statusCode <= 299)
             && e.dialogId in f.dialogs && (m.info.dialogId != 0 ==> m.info.dialogId in f.dialogs)
    ensures Inv(InvitingState(m, SipReceive(e), a))
  {
    var (table, dialogId) :=
      Update(m.info.transactions, m.info.dialogId, e.transactionId, INVITE_TRANSACTION, e.dialogId);
    UpdateKeepsKinds(m.info.transactions, m.info.dialogId, e.transactionId, e.dialogId);
    ResponseKeeps(m.(info := m.info.(transactions := table, dialogId := dialogId)), e, a);
  }

  lemma CancelKeeps(m: Machine, a: Answers)
    requires Inv(m) && !m.failed && m.state == Inviting && SideOf(m.path) == Caller
    ensures Inv(InvitingState(m, GuiEndCall(0), a))
  {
    GoToKeeps(m.path, Inviting, Terminating);
    if m.info.dialogId > 0 {
      TryKeeps(m, Cancel(m.info.sipCallId, m.info.dialogId, a.stack), a.stack, Terminating);
    }
  }

  lemma UpdateKeepsKinds(table: Table, dialogId: int, id: int, newDialogId: int)
    requires Proper(table) && OnlyInvites(Live(table))
    ensures var (table', dialogId') := Update(table, dialogId, id, INVITE_TRANSACTION, newDialogId);
            Proper(table') && OnlyInvites(Live(table')) && dialogId' in {dialogId, newDialogId}
  {
    UpdateMeaning(table, dialogId, id, INVITE_TRANSACTION, newDialogId);
  }

  lemma SuccessKeeps(m: Machine, e: SipEvent, a: Answers)
    requires Inv(m) && !m.failed && m.state == Inviting && SideOf(m.path) == Caller && FactsOf(m.trace).success
    requires e.kind != CallReleased && 200 <= e.statusCode <= 299
    ensures Inv(Response(m, e, a))
  {
    RecordKeeps(m, Did(Ack(m.info.dialogId, a.stack)));
    if a.stack {
      var acked := Record(m, Ack(m.info.dialogId, a.stack));
      TryKeeps(acked, Status(m.info.callId, CsAccepted, a.gui), a.gui, Connected);
    }
  }

  lemma ResponseKeeps(m: Machine, e: SipEvent, a: Answers)
    requires Inv(m) && !m.failed && m.state == Inviting && SideOf(m.path) == Caller
    requires FactsOf(m.trace).success == (200 <= e.statusCode <= 299)
    ensures Inv(Response(m, e, a))
  {
    if e.kind == CallReleased {
      TryKeeps(m, Status(m.info.callId, CsUnreachable, a.gui), a.gui, Terminating);
    } else if 100 <= e.statusCode <= 199 {
      RecordKeeps(m, Did(Status(m.info.callId, if e.statusCode == 180 then CsRinging else CsTrying, a.gui)));
    } else if 200 <= e.statusCode <= 299 {
      SuccessKeeps(m, e, a);
    } else if 300 <= e.statusCode <= 699 {
      TryKeeps(m, Status(m.info.callId, CsDeclined, a.gui), a.gui, Terminating);
    }
  }

  lemma RingingKeeps(m: Machine, t: Trigger, a: Answers, room: bool)
    requires Inv(m) && !m.failed && m.state in {Ringing, Connecting}
    ensures Inv(Step(m, t, a, room).m)
  {
    SeeKeeps(m, t);
    DecidedBy(m.path, m.state);
    var seen := m.(trace := m.trace + [Saw(t)]);
    if t.GuiAcceptCall? {
      AnswerKeeps(seen, a);
    } else if t.GuiEndCall? {
      DeclineKeeps(seen, a);
    } else if t.SipReceive? {
      CalleeSipKeeps(seen, t.sip, a);
    }
  }

  lemma DeclineKeeps(m: Machine, a: Answers)
    requires Inv(m) && !m.failed && m.state in {Ringing, Connecting} && SideOf(m.path) == Callee
    ensures Inv(DeclineCall(m, a))
  {
    TryKeeps(m, Decline(m.info.sipCallId, m.info.dialogId, a.stack), a.stack, Terminating);
  }

  lemma CalleeSipKeeps(m: Machine, e: SipEvent, a: Answers)
    requires Inv(m) && !m.failed && m.state in {Ringing, Connecting} && SideOf(m.path) == Callee
    requires e.kind == CallAck ==> FactsOf(m.trace).sawAck
    ensures m.state == Ringing ==> Inv(RingingState(m, SipReceive(e), a))
    ensures m.state == Connecting ==> Inv(ConnectingState(m, SipReceive(e), a))
  {
    if m.state == Connecting && e.kind == CallAck {
      AckedKeeps(m, a);
    } else if IsCancel(e) {
      CancelledKeeps(m, a);
    }
  }

  lemma AckedKeeps(m: Machine, a: Answers)
    requires Inv(m) && !m.failed && m.state == Connecting && SideOf(m.path) == Callee && FactsOf(m.trace).sawAck
    ensures Inv(Tell(m, CsAccepted, a, Connected))
  {
    TryKeeps(m, Status(m.info.callId, CsAccepted, a.gui), a.gui, Connected);
  }

  lemma CancelledKeeps(m: Machine, a: Answers)
    requires Inv(m) && !m.failed && m.state in {Ringing, Connecting} && SideOf(m.path) == Callee
    ensures Inv(Tell(m, CsCancelled, a, Terminating))
  {
    TryKeeps(m, Status(m.info.callId, CsCancelled, a.gui), a.gui, Terminating);
  }

  lemma AnswerKeeps(m: Machine, a: Answers)
    requires Inv(m) && !m.failed && m.state in {Ringing, Connecting} && SideOf(m.path) == Callee
    ensures Inv(AnswerCall(m, a))
  {
    var live := Live(m.info.transactions);
    FindIsEarliest(m.info.transactions, INVITE_TRANSACTION);
    assert Earliest(live, INVITE_TRANSACTION) == live[0].id;
    TryKeeps(m, Ok200(m.info.dialogId, live[0].id, a.stack), a.stack, Connecting);
  }

  lemma ConnectedKeeps(m: Machine, t: Trigger, a: Answers, room: bool)
    requires Inv(m) && !m.failed && m.state == Connected
    ensures Inv(Step(m, t, a, room).m)
  {
    SeeKeeps(m, t);
    var seen := m.(trace := m.trace + [Saw(t)]);
    assert Step(m, t, a, room).m == ConnectedState(seen, t, a);
    ConnectedSeenKeeps(seen, t, a);
  }

  lemma ConnectedSeenKeeps(m: Machine, t: Trigger, a: Answers)
    requires Inv(m) && !m.failed && m.state == Connected
    ensures Inv(ConnectedState(m, t, a))
  {
    DecidedBy(m.path, m.state);
    if t.GuiEndCall? {
      TryKeeps(m, Bye(m.info.sipCallId, m.info.dialogId, a.stack), a.stack, Terminating);
    } else if t.SipReceive? && t.sip.kind == CallClosed {
      RemoteByeKeeps(m, t.sip, a);
    }
  }

  lemma RemoteByeKeeps(m: Machine, e: SipEvent, a: Answers)
    requires Inv(m) && !m.failed && m.state == Connected && e.kind == CallClosed
    ensures Inv(ConnectedState(m, SipReceive(e), a))
  {
    DecidedBy(m.path, m.state);
    UpdateMeaning(m.info.transactions, m.info.dialogId, e.transactionId, BYE_TRANSACTION, e.dialogId);
    var (table, dialogId) :=
      Update(m.info.transactions, m.info.dialogId, e.transactionId, BYE_TRANSACTION, e.dialogId);
    ByeSeenKeeps(m, m.(info := m.info.(transactions := table, dialogId := dialogId)));
  }

  /** With the BYE in the table the call is over, whatever else changed in it. */
  lemma ByeSeenKeeps(m: Machine, m': Machine)
    requires Safe(m) && m.state == Connected && SideOf(m.path) != Undecided
    requires m'.path == m.path && m'.state == m.state && m'.trace == m.trace && Proper(m'.info.transactions)
    ensures Inv(Fail(m')) && Inv(GoTo(m', Terminating))
  {
    GoToKeeps(m.path, Connected, Terminating);
  }

  lemma TerminatingKeeps(m: Machine, t: Trigger, a: Answers, room: bool)
    requires Inv(m) && !m.failed && m.state == Terminating
    ensures Inv(Step(m, t, a, room).m)
  {
    DecidedBy(m.path, m.state);
    TryKeeps(m, Status(m.info.callId, CsTerminated, a.gui), a.gui, Final);
  }

  lemma StepKeeps(m: Machine, t: Trigger, a: Answers, room: bool)
    requires Inv(m)
    ensures Inv(Step(m, t, a, room).m)
  {
    if !Stopped(m) {
      match m.state
      case Initial => InitialKeeps(m, t, a, room);
      case Checking => CheckingKeeps(m, t, a, room);
      case Inviting => InvitingKeeps(m, t, a, room);
      case Ringing => RingingKeeps(m, t, a, room);
      case Connecting => RingingKeeps(m, t, a, room);
      case Connected => ConnectedKeeps(m, t, a, room);
      case Terminating => TerminatingKeeps(m, t, a, room);
    }
  }

  lemma {:induction false} RunKeeps(m: Machine, inputs: seq<Input>)
    requires Fresh(m)
    ensures Inv(Run(m, inputs))
    decreases |inputs|
  {
    if inputs == [] {
      FreshInv(m);
    } else {
      var before, i := inputs[..|inputs| - 1], inputs[|inputs| - 1];
      RunKeeps(m, before);
      StepKeeps(Run(m, before), i.trigger, i.answers, i.room);
    }
  }
}
