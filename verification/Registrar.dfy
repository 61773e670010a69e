/**
 The slot table of core/sip_output/registrar_manager.c: what the scans and the locked sections compute.
 */
module RegistrarSpec {
  import opened Events

  /** accountstatus */
  datatype Acc = Acc(accountId: int, isRegistered: bool, isRefreshed: bool, regId: int, eventArrived: bool,
                     doShutdown: bool, isShutdown: bool, waitingOnRegOk: bool, waitingOnRefreshOk: bool,
                     waitingOnUnregOk: bool, informGui: bool)

  /** clear_account_info */
  const CLEARED := Acc(-1, false, false, -1, false, false, false, false, false, false, true)

  function FindByAccount(accs: seq<Acc>, accountId: int): (p: int)
    ensures -1 <= p < |accs|
    ensures p >= 0 ==> accs[p].accountId == accountId && forall i :: 0 <= i < p ==> accs[i].accountId != accountId
    ensures p == -1 ==> forall i :: 0 <= i < |accs| ==> accs[i].accountId != accountId
  {
    if accs == [] then -1
    else if accs[0].accountId == accountId then 0
    else
      var p := FindByAccount(accs[1..], accountId);
      if p == -1 then -1 else p + 1
  }

  function FindEmpty(accs: seq<Acc>): int {
    FindByAccount(accs, -1)
  }

  function FindByRegId(accs: seq<Acc>, regId: int): (p: int)
    ensures -1 <= p < |accs|
    ensures p >= 0 ==> accs[p].regId == regId && forall i :: 0 <= i < p ==> accs[i].regId != regId
    ensures p == -1 ==> forall i :: 0 <= i < |accs| ==> accs[i].regId != regId
  {
    if accs == [] then -1
    else if accs[0].regId == regId then 0
    else
      var p := FindByRegId(accs[1..], regId);
      if p == -1 then -1 else p + 1
  }

  /** How the locked section at the start of a registration ends. */
  datatype Claim = InUse | NoRoom | Failed(pos: nat) | Claimed(pos: nat)

  /** `regId` is what sending the first REGISTER returned: -1 also stands for missing account data. */
  function Register(accs: seq<Acc>, accountId: int, regId: int): (seq<Acc>, Claim) {
    if FindByAccount(accs, accountId) != -1 then (accs, InUse)
    else
      var p := FindEmpty(accs);
      if p == -1 then (accs, NoRoom)
      else if regId == -1 then (accs[p := CLEARED], Failed(p))
      else (accs[p := accs[p].(accountId := accountId, isRegistered := false, regId := regId, waitingOnRegOk := true)],
            Claimed(p))
  }

  /** The locked section at the start of an unregistration: the position whose thread is asked to stop, or -1. */
  function RequestShutdown(accs: seq<Acc>, accountId: int): (seq<Acc>, int) {
    var p := FindByAccount(accs, accountId);
    if p == -1 || accs[p].doShutdown || accs[p].isShutdown then (accs, -1)
    else (accs[p := accs[p].(doShutdown := true)], p)
  }

  /**
   Whether the account counts as registered after an event: read off the flag that says which REGISTER is
   outstanding.
   */
  function RegisteredAfter(a: Acc, kind: SipType): bool {
    match kind
    case RegistrationSuccess =>
      a.waitingOnRegOk || (a.isRegistered && (a.waitingOnRefreshOk || !a.waitingOnUnregOk))
    case RegistrationFailure =>
      !a.waitingOnRegOk && !a.waitingOnRefreshOk && (a.isRegistered || a.waitingOnUnregOk)
    case RegistrationRefreshed => true
    case RegistrationTerminated => false
    case _ => a.isRegistered
  }

  /** And whether as refreshed. */
  function RefreshedAfter(a: Acc, kind: SipType): bool {
    match kind
    case RegistrationSuccess => a.isRefreshed || (a.waitingOnRefreshOk && !a.waitingOnRegOk)
    case RegistrationFailure => a.isRefreshed && (a.waitingOnRegOk || !a.waitingOnRefreshOk)
    case RegistrationRefreshed => true
    case RegistrationTerminated => false
    case _ => a.isRefreshed
  }

  function FlagsAfter(a: Acc, kind: SipType): Acc {
    a.(isRegistered := RegisteredAfter(a, kind), isRefreshed := RefreshedAfter(a, kind))
  }

  function AfterEvent(a: Acc, kind: SipType): Acc {
    FlagsAfter(a, kind).(eventArrived := true)
  }

  function Receive(accs: seq<Acc>, regId: int, kind: SipType): seq<Acc> {
    var p := FindByRegId(accs, regId);
    if p == -1 then accs else accs[p := AfterEvent(accs[p], kind)]
  }

  /** unregisterall_thread mutes every used slot and asks for the registered ones to be unregistered. */
  function Muted(accs: seq<Acc>): (r: seq<Acc>)
    ensures |r| == |accs|
    ensures forall i :: 0 <= i < |accs| ==>
            r[i] == if accs[i].accountId != -1 then accs[i].(informGui := false) else accs[i]
  {
    seq(|accs|, i requires 0 <= i < |accs| =>
      if accs[i].accountId != -1 then accs[i].(informGui := false) else accs[i])
  }

  function RegisteredAccounts(accs: seq<Acc>): seq<int> {
    if accs == [] then []
    else
      var rest := RegisteredAccounts(accs[..|accs| - 1]);
      var a := accs[|accs| - 1];
      if a.accountId != -1 && a.isRegistered then rest + [a.accountId] else rest
  }
}

/** registrar_manager.c on its global array. */
module Registrars {
  import opened Events
  import opened RegistrarSpec

  class RegistrarManager {
    const accInfos: array<Acc>

    /** rm_init */
    constructor (maxAccountIdAmount: nat)
      ensures fresh(accInfos) && accInfos[..] == seq(maxAccountIdAmount, _ => CLEARED)
    {
      var accs := new Acc[maxAccountIdAmount](_ => CLEARED);
      accInfos := accs;
    }

    method FindAccById(accountId: int) returns (found: bool, pos: int)
      ensures pos == FindByAccount(accInfos[..], accountId) && found == (pos != -1)
    {
      for i := 0 to accInfos.Length
        invariant forall k :: 0 <= k < i ==> accInfos[k].accountId != accountId
      {
        if accInfos[i].accountId == accountId {
          return true, i;
        }
      }
      return false, -1;
    }

    method FindEmptyAccInfo() returns (pos: int)
      ensures pos == FindEmpty(accInfos[..])
    {
      for i := 0 to accInfos.Length
        invariant forall k :: 0 <= k < i ==> accInfos[k].accountId != -1
      {
        if accInfos[i].accountId == -1 {
          return i;
        }
      }
      return -1;
    }

    method FindAccByRegid(regId: int) returns (pos: int)
      ensures pos == FindByRegId(accInfos[..], regId)
    {
      for i := 0 to accInfos.Length
        invariant forall k :: 0 <= k < i ==> accInfos[k].regId != regId
      {
        if accInfos[i].regId == regId {
          return i;
        }
      }
      return -1;
    }

    method ClearAccountInfo(pos: nat)
      requires pos < accInfos.Length
      modifies accInfos
      ensures accInfos[..] == old(accInfos[..])[pos := CLEARED]
    {
      accInfos[pos] := CLEARED;
    }

    /** registration_thread, from taking accInfoLock to releasing it. */
    method RegisterLocked(accountId: int, dataValid: bool, sendResult: int) returns (claim: Claim)
      modifies accInfos
      ensures var regId := if dataValid then sendResult else -1;
              (accInfos[..], claim) == Register(old(accInfos[..]), accountId, regId)
    {
      var found, _ := FindAccById(accountId);
      if found {
        return InUse;
      }
      var pos := FindEmptyAccInfo();
      if pos == -1 {
        return NoRoom;
      }
      accInfos[pos] := accInfos[pos].(accountId := accountId);
      accInfos[pos] := accInfos[pos].(isRegistered := false);
      if !dataValid {
        ClearAccountInfo(pos);
        assert accInfos[..] == old(accInfos[..])[pos := CLEARED];
        return Failed(pos);
      }
      if sendResult == -1 {
        ClearAccountInfo(pos);
        assert accInfos[..] == old(accInfos[..])[pos := CLEARED];
        return Failed(pos);
      }
      accInfos[pos] := accInfos[pos].(regId := sendResult);
      accInfos[pos] := accInfos[pos].(waitingOnRegOk := true);
      assert accInfos[..] == Register(old(accInfos[..]), accountId, sendResult).0;
      return Claimed(pos);
    }

    /** unregistration_thread, from taking accInfoLock to releasing it. */
    method UnregisterLocked(accountId: int) returns (pos: int)
      modifies accInfos
      ensures (accInfos[..], pos) == RequestShutdown(old(accInfos[..]), accountId)
    {
      var found: bool;
      found, pos := FindAccById(accountId);
      if !found {
        return -1;
      }
      if accInfos[pos].doShutdown || accInfos[pos].isShutdown {
        return -1;
      }
      accInfos[pos] := accInfos[pos].(doShutdown := true);
    }

    /** rm_receive_register_event */
    method ReceiveRegisterEvent(e: SipEvent) returns (ok: bool)
      modifies accInfos
      ensures accInfos[..] == Receive(old(accInfos[..]), e.regId, e.kind)
      ensures ok == (FindByRegId(old(accInfos[..]), e.regId) != -1)
    {
      var pos := FindAccByRegid(e.regId);
      if pos == -1 {
        return false;
      }
      BookFlags(pos, e.kind);
      accInfos[pos] := accInfos[pos].(eventArrived := true);
      ok := true;
    }

    method BookFlags(pos: nat, kind: SipType)
      requires pos < accInfos.Length
      modifies accInfos
      ensures accInfos[..] == old(accInfos[..])[pos := FlagsAfter(old(accInfos[pos]), kind)]
    {
      match kind
      case RegistrationSuccess => BookSuccess(pos);
      case RegistrationFailure => BookFailure(pos);
      case RegistrationRefreshed => accInfos[pos] := accInfos[pos].(isRegistered := true, isRefreshed := true);
      case RegistrationTerminated => accInfos[pos] := accInfos[pos].(isRegistered := false, isRefreshed := false);
      case _ =>
    }

    /** eXosip does not say which REGISTER an answer is for; the waiting flags do. */
    method BookSuccess(pos: nat)
      requires pos < accInfos.Length
      modifies accInfos
      ensures accInfos[..] == old(accInfos[..])[pos := FlagsAfter(old(accInfos[pos]), RegistrationSuccess)]
    {
      if accInfos[pos].waitingOnRegOk {
        accInfos[pos] := accInfos[pos].(isRegistered := true);
      } else if accInfos[pos].waitingOnRefreshOk {
        accInfos[pos] := accInfos[pos].(isRefreshed := true);
      } else if accInfos[pos].waitingOnUnregOk {
        accInfos[pos] := accInfos[pos].(isRegistered := false);
      }
    }

    method BookFailure(pos: nat)
      requires pos < accInfos.Length
      modifies accInfos
      ensures accInfos[..] == old(accInfos[..])[pos := FlagsAfter(old(accInfos[pos]), RegistrationFailure)]
    {
      if accInfos[pos].waitingOnRegOk {
        accInfos[pos] := accInfos[pos].(isRegistered := false);
      } else if accInfos[pos].waitingOnRefreshOk {
        accInfos[pos] := accInfos[pos].(isRegistered := false);
        accInfos[pos] := accInfos[pos].(isRefreshed := false);
      } else if accInfos[pos].waitingOnUnregOk {
        accInfos[pos] := accInfos[pos].(isRegistered := true);
      }
    }

    /** unregisterall_thread: the accounts for which an unregistration thread is started. */
    method UnregisterAll() returns (started: seq<int>)
      modifies accInfos
      ensures accInfos[..] == Muted(old(accInfos[..]))
      ensures started == RegisteredAccounts(old(accInfos[..]))
    {
      started := [];
      ghost var before := accInfos[..];
      for i := 0 to accInfos.Length
        invariant forall k :: 0 <= k < accInfos.Length ==>
                    accInfos[k] == if k < i then Muted(before)[k] else before[k]
        invariant started == RegisteredAccounts(before[..i])
      {
        assert before[..i + 1][..i] == before[..i];
        if accInfos[i].accountId != -1 {
          accInfos[i] := accInfos[i].(informGui := false);
        }
        if accInfos[i].accountId != -1 && accInfos[i].isRegistered {
          started := started + [accInfos[i].accountId];
        }
      }
      assert before[..accInfos.Length] == before;
      assert accInfos[..] == Muted(before);
    }
  }
}
