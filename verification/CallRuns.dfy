/**
 Theorems about every run of one call machine: any events in any order, any answers of the GUI and
 the SIP stack.
 */
module CallRuns {
  import opened Transactions
  import opened Events
  import opened CallMachine
  import opened CallSafety

  // ---------------------------------------------------------------- handshake and statuses

  /** Every message of the run obeys the protocol rules, and INVITE, ACK and the teardown are sent at most once. */
  lemma HandshakeSafety(m: Machine, inputs: seq<Input>)
    requires Fresh(m)
    ensures var h := Run(m, inputs).trace;
            && Lawful(h)
            && forall i, j :: 0 <= i < j < |h| ==>
                 && !(IsInvite(h[i]) && IsInvite(h[j]))
                 && !(IsAck(h[i]) && IsAck(h[j]))
                 && !(IsTeardown(h[i]) && IsTeardown(h[j]))
  {
    RunKeeps(m, inputs);
    var h := Run(m, inputs).trace;
    forall i, j | 0 <= i < j < |h|
      ensures !(IsInvite(h[i]) && IsInvite(h[j])) && !(IsAck(h[i]) && IsAck(h[j]))
              && !(IsTeardown(h[i]) && IsTeardown(h[j]))
    {
      assert Allowed(h[..j], h[j]);
      assert h[..j][i] == h[i] && h[i] in h[..j];
    }
  }

  /**
   The callee's BYE comes after the ACK event, its 200 after its 180, and both name the INVITE that created
   the call.
   */
  lemma CalleeOrder(m: Machine, inputs: seq<Input>, i: nat)
    requires Fresh(m) && i < |Run(m, inputs).trace| && NoInvite(Run(m, inputs).trace)
    ensures var h := Run(m, inputs).trace;
            && (h[i].Did? && h[i].effect.Bye? ==> exists k :: 0 <= k < i && IsAckEvent(h[k]))
            && (h[i].Did? && h[i].effect.Ok200? ==>
                  exists k :: 0 <= k < i && h[k] == Did(Provisional180(h[i].effect.transactionId, true)))
            && (h[i].Did? && h[i].effect.Ok200? ==> CreatedBy(h[..i], h[i].effect.transactionId))
            && !(h[i].Did? && h[i].effect.Ack?)
  {
    HandshakeSafety(m, inputs);
    var r := Run(m, inputs);
    var h := r.trace;
    assert Allowed(h[..i], h[i]);
    assert NoInvite(h[..i]) by {
      forall e | e in h[..i] ensures !IsInvite(e) { assert e in h; }
    }
    if h[i].Did? && h[i].effect.Bye? {
      var e :| e in h[..i] && IsAckEvent(e);
      var k :| 0 <= k < i && h[..i][k] == e;
      assert IsAckEvent(h[k]);
    }
    if h[i].Did? && h[i].effect.Ok200? {
      var k :| 0 <= k < i && h[..i][k] == Did(Provisional180(h[i].effect.transactionId, true));
      assert h[k] == h[..i][k];
    }
  }

  /** The statuses told so far fit the side of the call, and TERMINATED is the last exactly when the run is over. */
  ghost predicate StatusesFit(r: Machine) {
    var w := Statuses(r.trace);
    && (Checking in r.path ==> OutgoingWord(w))
    && (Ringing in r.path ==> IncomingWord(w))
    && (Checking !in r.path && Ringing !in r.path ==> w == [])
    && (r.state == Final <==> w != [] && w[|w| - 1] == CsTerminated)
  }

  /** The statuses told to the GUI, for a call on either side and at any moment. */
  lemma StatusLanguage(m: Machine, inputs: seq<Input>)
    requires Fresh(m)
    ensures StatusesFit(Run(m, inputs))
  {
    RunKeeps(m, inputs);
    LanguageKept(Run(m, inputs));
  }

  lemma LanguageKept(r: Machine)
    requires Inv(r)
    ensures StatusesFit(r)
  {
    SideMeaning(r.path, r.state);
    LanguageOf(r.state, SideOf(r.path), FactsOf(r.trace).word, r.trace);
  }

  lemma LanguageOf(state: State, side: Side, word: Word, h: seq<Entry>)
    requires WordFits(state, side, word) && word == FactsOf(h).word && (side == Undecided <==> state == Initial)
    requires state in SideStates(side)
    ensures var w := Statuses(h);
            && (side == Caller ==> OutgoingWord(w))
            && (side == Callee ==> IncomingWord(w))
            && (side == Undecided ==> w == [])
            && (state == Final <==> w != [] && w[|w| - 1] == CsTerminated)
  {
    var w := Statuses(h);
    WordMeaning(h);
    BodyOf(word, w);
    if state == Final {
      BodyOf(word.before, w[..|w| - 1]);
    }
  }

  lemma SideMeaning(path: seq<State>, state: State)
    requires PathOk(path, state)
    ensures Checking in path <==> SideOf(path) == Caller
    ensures Ringing in path <==> SideOf(path) == Callee
    ensures SideOf(path) == Undecided <==> state == Initial
  {
    if |path| >= 2 {
      assert path[1] in path;
    }
  }

  /** Outgoing calls never ring or connect; incoming calls never check an account or invite. */
  lemma SidesNeverMix(m: Machine, inputs: seq<Input>)
    requires Fresh(m)
    ensures var path := Run(m, inputs).path;
            || (Ringing !in path && Connecting !in path)
            || (Checking !in path && Inviting !in path)
  {
    RunKeeps(m, inputs);
    SideExcludes(Run(m, inputs).path, Run(m, inputs).state);
  }

  lemma SideExcludes(path: seq<State>, state: State)
    requires PathOk(path, state)
    ensures SideOf(path) == Callee ==> Checking !in path && Inviting !in path
    ensures SideOf(path) != Callee ==> Ringing !in path && Connecting !in path
  {
  }

  // ---------------------------------------------------------------- transactions and the dialog

  /** On every run a lookup by type finds the earliest live entry, whatever the unset types hold. */
  lemma TableOnRuns(m: Machine, inputs: seq<Input>, kind: int)
    requires Fresh(m)
    ensures var table := Run(m, inputs).info.transactions;
            Proper(table) && FindByType(table, kind) == Earliest(Live(table), kind)
  {
    RunKeeps(m, inputs);
    FindIsEarliest(Run(m, inputs).info.transactions, kind);
  }

  /** A remote BYE ends the call exactly when its transaction is positive, new, and still fits the table. */
  lemma ByeEndsCallIff(m: Machine, inputs: seq<Input>, e: SipEvent, a: Answers, room: bool)
    requires Fresh(m)
    requires var r := Run(m, inputs); r.state == Connected && !r.failed && e.kind == CallClosed
    ensures var live := Live(Run(m, inputs).info.transactions);
            var next := Step(Run(m, inputs), SipReceive(e), a, room).m;
            var fits := e.transactionId >= 1 && e.transactionId !in Ids(live) && |live| < MAX_TRANSACTION_COUNT;
            && (next.state == Terminating <==> fits)
            && (next.failed <==> !fits)
  {
    RunKeeps(m, inputs);
    var r := Run(m, inputs);
    UpdateMeaning(r.info.transactions, r.info.dialogId, e.transactionId, BYE_TRANSACTION, e.dialogId);
    var (table, _) := Update(r.info.transactions, r.info.dialogId, e.transactionId, BYE_TRANSACTION, e.dialogId);
    FindIsEarliest(table, BYE_TRANSACTION);
    NoByeYet(Live(r.info.transactions), e.transactionId);
  }

  lemma {:induction false} NoByeYet(live: Table, id: int)
    requires OnlyInvites(live)
    ensures Earliest(live, BYE_TRANSACTION) == -1
    ensures Earliest(live + [Transaction(id, BYE_TRANSACTION)], BYE_TRANSACTION) == id
  {
    if live != [] {
      NoByeYet(live[1..], id);
      assert (live + [Transaction(id, BYE_TRANSACTION)])[1..] == live[1..] + [Transaction(id, BYE_TRANSACTION)];
    }
  }

  /** The SIP events consumed since the INVITE was sent. */
  function Responses(h: seq<Entry>): seq<SipEvent>
    decreases |h|
  {
    if h == [] then []
    else
      match h[|h| - 1]
      case Did(Invite(_, _, _)) => []
      case Saw(SipReceive(e)) => Responses(h[..|h| - 1]) + [e]
      case _ => Responses(h[..|h| - 1])
  }

  /** The first ten distinct transaction IDs >= 1. */
  function Known(es: seq<SipEvent>): seq<int>
    decreases |es|
  {
    if es == [] then []
    else
      var ids, id := Known(es[..|es| - 1]), es[|es| - 1].transactionId;
      if id >= 1 && id !in ids && |ids| < MAX_TRANSACTION_COUNT then ids + [id] else ids
  }

  /** While fewer than ten IDs are known, the known ones are exactly those seen. */
  lemma {:induction false} KnownMeaning(es: seq<SipEvent>)
    ensures Distinct(Known(es)) && |Known(es)| <= MAX_TRANSACTION_COUNT
    ensures forall id :: id in Known(es) ==> id >= 1 && exists i :: 0 <= i < |es| && es[i].transactionId == id
    ensures |Known(es)| < MAX_TRANSACTION_COUNT ==>
              forall i :: 0 <= i < |es| && es[i].transactionId >= 1 ==> es[i].transactionId in Known(es)
    decreases |es|
  {
    if es != [] {
      var n := |es| - 1;
      KnownMeaning(es[..n]);
      assert forall i :: 0 <= i < n ==> es[..n][i] == es[i];
    }
  }

  /** Event i confirms a dialog: its transaction was known before it and it carries a dialog ID. */
  predicate Confirms(es: seq<SipEvent>, i: int)
    requires 0 <= i < |es|
  {
    es[i].transactionId in Known(es[..i]) && es[i].dialogId != 0
  }

  /** The dialog ID of the latest confirming event, or 0 if there is none. */
  ghost predicate LatestDialog(es: seq<SipEvent>, dialogId: int) {
    || (dialogId == 0 && forall i :: 0 <= i < |es| ==> !Confirms(es, i))
    || exists i :: 0 <= i < |es| && Confirms(es, i) && es[i].dialogId == dialogId &&
                   forall j :: i < j < |es| ==> !Confirms(es, j)
  }

  lemma LatestExtends(es: seq<SipEvent>, e: SipEvent, dialogId: int)
    requires LatestDialog(es, dialogId)
    ensures LatestDialog(es + [e], if e.transactionId in Known(es) && e.dialogId != 0 then e.dialogId else dialogId)
  {
    var fs := es + [e];
    assert fs[..|es|] == es;
    assert forall i :: 0 <= i < |es| ==> fs[..i] == es[..i] && fs[i] == es[i];
    assert forall i :: 0 <= i < |es| ==> Confirms(fs, i) == Confirms(es, i);
    if Confirms(fs, |es|) {
      assert fs[|es|].dialogId == e.dialogId;
    } else if !(dialogId == 0 && forall i :: 0 <= i < |es| ==> !Confirms(es, i)) {
      var i :| 0 <= i < |es| && Confirms(es, i) && es[i].dialogId == dialogId &&
               forall j :: i < j < |es| ==> !Confirms(es, j);
      assert Confirms(fs, i) && fs[i].dialogId == dialogId;
    }
  }

  /** In INVITING the table holds the known transactions and dialogId is that of the latest confirmation. */
  ghost predicate Tracks(m: Machine) {
    m.state == Inviting ==>
      var es := Responses(m.trace);
      Ids(Live(m.info.transactions)) == Known(es) && LatestDialog(es, m.info.dialogId)
  }

  lemma TrackingStarts(m: Machine, t: Trigger, a: Answers, room: bool)
    requires Inv(m) && !m.failed && m.state == Checking
    ensures Tracks(Step(m, t, a, room).m)
  {
    assert Known([]) == [];
  }

  lemma ResponsesExtend(h: seq<Entry>, e: Entry)
    ensures e.Did? && !e.effect.Invite? ==> Responses(h + [e]) == Responses(h)
    ensures e.Saw? && !e.trigger.SipReceive? ==> Responses(h + [e]) == Responses(h)
    ensures e.Saw? && e.trigger.SipReceive? ==> Responses(h + [e]) == Responses(h) + [e.trigger.sip]
  {
    assert (h + [e])[..|h|] == h;
  }

  lemma TrackingKept(m: Machine, t: Trigger, a: Answers, room: bool)
    requires Inv(m) && !m.failed && m.state == Inviting && Tracks(m)
    ensures Tracks(Step(m, t, a, room).m)
  {
    ResponsesExtend(m.trace, Saw(t));
    if t.SipReceive? {
      ResponseTracks(m, t.sip, a);
    }
  }

  lemma ResponseTracks(m: Machine, e: SipEvent, a: Answers)
    requires Proper(m.info.transactions) && m.state == Inviting && Tracks(m)
    ensures Tracks(InvitingState(m.(trace := m.trace + [Saw(SipReceive(e))]), SipReceive(e), a))
  {
    var seen := m.trace + [Saw(SipReceive(e))];
    var es := Responses(m.trace);
    ResponsesExtend(m.trace, Saw(SipReceive(e)));
    var (table, dialogId) :=
      Update(m.info.transactions, m.info.dialogId, e.transactionId, INVITE_TRANSACTION, e.dialogId);
    UpdateTracks(m.info.transactions, m.info.dialogId, es, e);
    ResponseRecords(m.(trace := seen, info := m.info.(transactions := table, dialogId := dialogId)), e, a);
  }

  lemma UpdateTracks(table: Table, dialogId: int, es: seq<SipEvent>, e: SipEvent)
    requires Proper(table) && Ids(Live(table)) == Known(es) && LatestDialog(es, dialogId)
    ensures var (table', dialogId') := Update(table, dialogId, e.transactionId, INVITE_TRANSACTION, e.dialogId);
            Ids(Live(table')) == Known(es + [e]) && LatestDialog(es + [e], dialogId')
  {
    UpdateMeaning(table, dialogId, e.transactionId, INVITE_TRANSACTION, e.dialogId);
    LatestExtends(es, e, dialogId);
    KnownMeaning(es);
    assert (es + [e])[..|es|] == es;
    var (table', _) := Update(table, dialogId, e.transactionId, INVITE_TRANSACTION, e.dialogId);
    assert Ids(Live(table')) == Known(es + [e]);
  }

  lemma ResponseRecords(m: Machine, e: SipEvent, a: Answers)
    ensures Response(m, e, a).info == m.info
    ensures Responses(Response(m, e, a).trace) == Responses(m.trace)
  {
    var id := m.info.callId;
    ResponsesExtend(m.trace, Did(Status(id, CsUnreachable, a.gui)));
    ResponsesExtend(m.trace, Did(Status(id, CsDeclined, a.gui)));
    ResponsesExtend(m.trace, Did(Status(id, if e.statusCode == 180 then CsRinging else CsTrying, a.gui)));
    var acked := m.trace + [Did(Ack(m.info.dialogId, a.stack))];
    ResponsesExtend(m.trace, Did(Ack(m.info.dialogId, a.stack)));
    ResponsesExtend(acked, Did(Status(id, CsAccepted, a.gui)));
  }

  lemma {:induction false} DialogTracking(m: Machine, inputs: seq<Input>)
    requires Fresh(m)
    ensures Tracks(Run(m, inputs))
    decreases |inputs|
  {
    if inputs != [] {
      var before, x := inputs[..|inputs| - 1], inputs[|inputs| - 1];
      DialogTracking(m, before);
      RunKeeps(m, before);
      TracksOn(Run(m, before), x);
    }
  }

  lemma TracksOn(r: Machine, x: Input)
    requires Inv(r) && Tracks(r)
    ensures Tracks(Step(r, x.trigger, x.answers, x.room).m)
  {
    if !Stopped(r) {
      if r.state == Checking {
        TrackingStarts(r, x.trigger, x.answers, x.room);
      } else if r.state == Inviting {
        TrackingKept(r, x.trigger, x.answers, x.room);
      } else {
        NotInviting(r, x.trigger, x.answers, x.room);
      }
    }
  }

  /** INVITING is entered from CHECKING only. */
  lemma NotInviting(r: Machine, t: Trigger, a: Answers, room: bool)
    requires !Stopped(r) && r.state != Checking && r.state != Inviting
    ensures Step(r, t, a, room).m.state != Inviting
  {
  }

  // ---------------------------------------------------------------- the inner loop of sm_start

  function Rank(state: State): nat {
    match state
    case Initial => 6
    case Checking => 5
    case Ringing => 5
    case Inviting => 4
    case Connecting => 4
    case Connected => 3
    case Terminating => 2
    case Final => 0
  }

  datatype Drained = Drained(m: Machine, pool: seq<Trigger>, passes: nat)

  predicate KeepsLooping(m: Machine, pool: seq<Trigger>) {
    !Stopped(m) && (m.state == Terminating || pool != [])
  }

  /** One pass: dequeue unless TERMINATING, handle, put the pseudo event at the end of the pool. */
  function Pass(m: Machine, pool: seq<Trigger>, capacity: nat, a: Answers): (Machine, seq<Trigger>)
    requires KeepsLooping(m, pool)
  {
    if m.state == Terminating then (Step(m, InvalidEvent, a, false).m, pool)
    else
      var o := Step(m, pool[0], a, |pool| - 1 < capacity);
      (o.m, if o.posted.Some? then pool[1..] + [o.posted.value] else pool[1..])
  }

  lemma PassDecreases(m: Machine, pool: seq<Trigger>, capacity: nat, a: Answers)
    requires KeepsLooping(m, pool)
    ensures var (m', pool') := Pass(m, pool, capacity, a);
            && (Rank(m'.state) < Rank(m.state) || (m'.state == m.state && |pool'| < |pool|) || m'.failed)
            && Remaining(m', pool') < Remaining(m, pool)
  {
  }

  /** How many passes can still follow: one per event, one for the pseudo event, one for TERMINATING. */
  function Remaining(m: Machine, pool: seq<Trigger>): nat {
    |pool| + (if m.state == Initial && !m.failed then 1 else 0) + (if Stopped(m) then 0 else 1)
  }

  /** The inner loop with no outside arrivals; the k-th pass gets answers(k). */
  function Drain(m: Machine, pool: seq<Trigger>, capacity: nat, answers: nat -> Answers, k: nat,
                 doShutdown: bool): Drained
    decreases Remaining(m, pool)
  {
    if !KeepsLooping(m, pool) then Drained(m, pool, k)
    else
      PassDecreases(m, pool, capacity, answers(k));
      var (m', pool') := Pass(m, pool, capacity, answers(k));
      if doShutdown then Drained(m', pool', k + 1) else Drain(m', pool', capacity, answers, k + 1, doShutdown)
  }

  /** It ends for every pool, state and answers, within |pool| + 2 passes, asleep with an empty pool or stopped. */
  lemma {:induction false} DrainEnds(m: Machine, pool: seq<Trigger>, capacity: nat, answers: nat -> Answers, k: nat)
    ensures var d := Drain(m, pool, capacity, answers, k, false);
            && k <= d.passes <= k + |pool| + 2
            && (Stopped(d.m) || (d.pool == [] && d.m.state != Terminating))
    ensures Drain(m, pool, capacity, answers, k, false).passes <= k + Remaining(m, pool)
    decreases Remaining(m, pool)
  {
    if KeepsLooping(m, pool) {
      PassDecreases(m, pool, capacity, answers(k));
      var (m', pool') := Pass(m, pool, capacity, answers(k));
      DrainEnds(m', pool', capacity, answers, k + 1);
    }
  }
}
