/**
 The transaction table of one call: core/events/transaction_info.c and info_types.h.

 A call has ten entries; ID -1 marks an unused one. The type of an unused entry is whatever was in
 memory, so it is an arbitrary integer here.
 */
module Transactions {
  import opened Options

  const MAX_TRANSACTION_COUNT := 10

  const BYE_TRANSACTION := 0
  const INVITE_TRANSACTION := 1

  datatype Transaction = Transaction(id: int, kind: int)

  type Table = seq<Transaction>

  // ---------------------------------------------------------------- what the C functions compute

  function FindByType(table: Table, kind: int): int {
    if table == [] then -1 else if table[0].kind == kind then table[0].id else FindByType(table[1..], kind)
  }

  function FreeEntry(table: Table): (i: nat)
    ensures i <= |table|
    ensures forall k :: 0 <= k < i ==> table[k].id != -1
    ensures i < |table| ==> table[i].id == -1
  {
    if table == [] || table[0].id == -1 then 0 else 1 + FreeEntry(table[1..])
  }

  function Add(table: Table, id: int, kind: int): Table {
    var i := FreeEntry(table);
    if i < |table| then table[i := Transaction(id, kind)] else table
  }

  predicate Contains(table: Table, id: int) {
    exists i :: 0 <= i < |table| && table[i].id == id
  }

  /** The table and the dialog ID after update_transaction_and_dialog. */
  function Update(table: Table, dialogId: int, id: int, kind: int, newDialogId: int): (Table, int) {
    if id < 1 then (table, dialogId)
    else if !Contains(table, id) then (Add(table, id, kind), dialogId)
    else (table, if newDialogId != 0 then newDialogId else dialogId)
  }

  // ---------------------------------------------------------------- what the table means

  /** The entries in use: everything before the first -1. */
  function Live(table: Table): (live: Table)
    ensures |live| == FreeEntry(table) && live == table[..|live|]
  {
    if table == [] || table[0].id == -1 then [] else [table[0]] + Live(table[1..])
  }

  function Ids(table: Table): (ids: seq<int>)
    ensures |ids| == |table| && forall i :: 0 <= i < |ids| ==> ids[i] == table[i].id
  {
    seq(|table|, i requires 0 <= i < |table| => table[i].id)
  }

  ghost predicate Distinct(ids: seq<int>) {
    forall i, j :: 0 <= i < j < |ids| ==> ids[i] != ids[j]
  }

  /** Entries in use form a prefix without duplicate IDs. */
  ghost predicate Proper(table: Table) {
    && |table| == MAX_TRANSACTION_COUNT
    && (forall i :: |Live(table)| <= i < |table| ==> table[i].id == -1)
    && Distinct(Ids(Live(table)))
  }

  /** The entry of this type that was added first, as an ID, or -1. */
  function Earliest(live: Table, kind: int): (id: int)
    ensures id != -1 ==> exists i :: 0 <= i < |live| && live[i] == Transaction(id, kind)
  {
    if live == [] then -1 else if live[0].kind == kind then live[0].id else Earliest(live[1..], kind)
  }

  /** Uninitialised types never matter: the scan finds the earliest live entry of a type or -1. */
  lemma {:induction false} FindIsEarliest(table: Table, kind: int)
    requires forall i :: |Live(table)| <= i < |table| ==> table[i].id == -1
    ensures FindByType(table, kind) == Earliest(Live(table), kind)
  {
    if table == [] {
    } else if table[0].id == -1 {
      AllUnused(table, kind);
    } else {
      assert Live(table)[1..] == Live(table[1..]);
      forall i | |Live(table[1..])| <= i < |table[1..]|
        ensures table[1..][i].id == -1
      {
        assert table[1..][i] == table[i + 1];
      }
      FindIsEarliest(table[1..], kind);
    }
  }

  lemma {:induction false} AllUnused(table: Table, kind: int)
    requires forall i :: 0 <= i < |table| ==> table[i].id == -1
    ensures FindByType(table, kind) == -1
  {
    if table != [] {
      AllUnused(table[1..], kind);
    }
  }

  lemma {:induction false} LiveOfPrefix(table: Table, n: nat)
    requires n <= |table|
    requires forall k :: 0 <= k < n ==> table[k].id != -1
    requires n < |table| ==> table[n].id == -1
    ensures Live(table) == table[..n]
  {
    if n > 0 {
      LiveOfPrefix(table[1..], n - 1);
      assert table[..n] == [table[0]] + table[1..][..n - 1];
    }
  }

  /** Adding appends to the live entries while there is room, and otherwise changes nothing. */
  lemma AddAppends(table: Table, id: int, kind: int)
    requires Proper(table) && id != -1 && id !in Ids(Live(table))
    ensures Proper(Add(table, id, kind))
    ensures Live(Add(table, id, kind)) ==
              if |Live(table)| < MAX_TRANSACTION_COUNT then Live(table) + [Transaction(id, kind)] else Live(table)
  {
    var n, table' := |Live(table)|, Add(table, id, kind);
    if n < |table| {
      LiveOfPrefix(table', n + 1);
      assert table'[..n + 1] == table[..n] + [Transaction(id, kind)];
      assert Ids(Live(table')) == Ids(Live(table)) + [id];
    }
  }

  lemma ContainsIsLive(table: Table, id: int)
    requires Proper(table) && id != -1
    ensures Contains(table, id) <==> id in Ids(Live(table))
  {
    if Contains(table, id) {
      var i :| 0 <= i < |table| && table[i].id == id;
      assert Ids(Live(table))[i] == id;
    }
    if id in Ids(Live(table)) {
      var i :| 0 <= i < |Live(table)| && Ids(Live(table))[i] == id;
      assert table[i].id == id;
    }
  }

  /** The three outcomes of an update, on the live entries. */
  lemma UpdateMeaning(table: Table, dialogId: int, id: int, kind: int, newDialogId: int)
    requires Proper(table)
    ensures var (table', dialogId') := Update(table, dialogId, id, kind, newDialogId);
            && Proper(table')
            && (id >= 1 && id !in Ids(Live(table)) && |Live(table)| < MAX_TRANSACTION_COUNT ==>
                  Live(table') == Live(table) + [Transaction(id, kind)])
            && (id < 1 || id in Ids(Live(table)) || |Live(table)| == MAX_TRANSACTION_COUNT
                ==> Live(table') == Live(table))
            && (dialogId' == if id >= 1 && id in Ids(Live(table)) && newDialogId != 0 then newDialogId else dialogId)
  {
    if id >= 1 {
      ContainsIsLive(table, id);
      if !Contains(table, id) {
        AddAppends(table, id, kind);
      }
    }
  }

  /** A table fresh from init_transactions has no live entry, whatever the uninitialised types are. */
  lemma UnusedIsProper(table: Table)
    requires |table| == MAX_TRANSACTION_COUNT && forall i :: 0 <= i < |table| ==> table[i].id == -1
    ensures Proper(table) && Live(table) == []
  {
  }

  // ---------------------------------------------------------------- the record updated in place

  datatype CallInfo = CallInfo(callId: int, accountId: int, callee: Option<string>, caller: Option<string>,
                               from: Option<string>, to: Option<string>, sipCallId: int, dialogId: int,
                               transactions: Table)

  class LocalCallInfo {
    var callId: int
    var accountId: int
    var callee: Option<string>
    var caller: Option<string>
    var from: Option<string>
    var to: Option<string>
    var sipCallId: int
    var dialogId: int
    const transactions: array<Transaction>

    ghost predicate Valid()
      reads this
    {
      transactions.Length == MAX_TRANSACTION_COUNT
    }

    ghost function Value(): CallInfo
      reads this, transactions
    {
      CallInfo(callId, accountId, callee, caller, from, to, sipCallId, dialogId, transactions[..])
    }

    /** sm_start declares the record and calls init_transactions on it; other fields are unset. */
    constructor (junk: Table)
      requires |junk| == MAX_TRANSACTION_COUNT
      ensures Valid() && fresh(transactions)
      ensures Value().callee == None && Value().caller == None
      ensures Proper(Value().transactions) && Live(Value().transactions) == []
    {
      callee, caller, from, to := None, None, None, None;
      var table := new Transaction[MAX_TRANSACTION_COUNT](i requires 0 <= i < 10 => junk[i]);
      for i := 0 to MAX_TRANSACTION_COUNT
        invariant forall k :: 0 <= k < i ==> table[k].id == -1
      {
        table[i] := table[i].(id := -1);
      }
      transactions := table;
      UnusedIsProper(table[..]);
    }

    /** The assignments with which INITIAL stores a new call. */
    method StoreCall(accountId: int, callId: int, callee: Option<string>, caller: Option<string>,
                     sipCallId: int, dialogId: int)
      modifies this
      ensures Value() == CallInfo(callId, accountId, callee, caller, None, None, sipCallId, dialogId,
                                  old(Value().transactions))
    {
      this.accountId := accountId;
      this.callId := callId;
      this.callee := callee;
      this.caller := caller;
      this.sipCallId := sipCallId;
      this.dialogId := dialogId;
      from := None;
      to := None;
    }

    method FindTransactionByType(kind: int) returns (id: int)
      requires Valid()
      ensures id == FindByType(transactions[..], kind)
    {
      var i := 0;
      while i < MAX_TRANSACTION_COUNT
        invariant 0 <= i <= MAX_TRANSACTION_COUNT
        invariant FindByType(transactions[..], kind) == FindByType(transactions[i..], kind)
      {
        assert transactions[i..][1..] == transactions[i + 1..];
        if transactions[i].kind == kind {
          return transactions[i].id;
        }
        i := i + 1;
      }
      return -1;
    }

    method AddTransaction(id: int, kind: int) returns (ok: bool)
      requires Valid()
      modifies transactions
      ensures transactions[..] == Add(old(transactions[..]), id, kind)
      ensures ok == Contains(old(transactions[..]), -1)
    {
      var i := 0;
      while i < MAX_TRANSACTION_COUNT
        invariant 0 <= i <= MAX_TRANSACTION_COUNT
        invariant forall k :: 0 <= k < i ==> transactions[k].id != -1
        invariant transactions[..] == old(transactions[..])
      {
        if transactions[i].id == -1 {
          assert FreeEntry(old(transactions[..])) == i;
          assert old(transactions[..])[i].id == -1;
          transactions[i] := Transaction(id, kind);
          return true;
        }
        i := i + 1;
      }
      return false;
    }

    method UpdateTransactionAndDialog(id: int, kind: int, newDialogId: int)
      requires Valid()
      modifies this`dialogId, transactions
      ensures (transactions[..], dialogId) ==
                Update(old(transactions[..]), old(dialogId), id, kind, newDialogId)
    {
      if id < 1 {
        return;
      }
      var found := false;
      var i := 0;
      while i < MAX_TRANSACTION_COUNT
        invariant 0 <= i <= MAX_TRANSACTION_COUNT
        invariant !found && forall k :: 0 <= k < i ==> transactions[k].id != id
      {
        if transactions[i].id == id {
          found := true;
          assert transactions[..][i].id == id;
          break;
        }
        i := i + 1;
      }
      if !found {
        var _ := AddTransaction(id, kind);
        return;
      }
      if newDialogId != 0 {
        dialogId := newDialogId;
      }
    }
  }
}
