/** The doubly linked list of accounts in util/list/list.c and the account manager that works on it. */
module AccountLists {
  import opened Options
  import opened AccountSpec
  import opened SipUri

  /** struct node, with the account it points to. */
  class ListNode {
    var acc: Account
    var next: ListNode?
    var prev: ListNode?

    constructor (acc: Account, prev: ListNode?)
      ensures this.acc == acc && next == null && this.prev == prev
    {
      this.acc, this.next, this.prev := acc, null, prev;
    }
  }

  class AccountList {
    var head: ListNode?
    var tail: ListNode?
    ghost var nodes: seq<ListNode>
    ghost var contents: seq<Account>

    /** The node at a position, null beyond either end. */
    ghost function At(k: int): ListNode?
      reads this
    {
      if 0 <= k < |nodes| then nodes[k] else null
    }

    /** `head` and `tail` are the two ends, and the pointers of each node lead to its neighbours. */
    ghost predicate Linked()
      reads this, nodes
    {
      && head == At(0) && tail == At(|nodes| - 1)
      && (forall i, j :: 0 <= i < j < |nodes| ==> nodes[i] != nodes[j])
      && (forall k {:trigger nodes[k].next} :: 0 <= k < |nodes| ==>
            nodes[k].next == if k + 1 < |nodes| then nodes[k + 1] else null)
      && (forall k {:trigger nodes[k].prev} :: 0 <= k < |nodes| ==>
            nodes[k].prev == if k > 0 then nodes[k - 1] else null)
    }

    /** The nodes hold the accounts of the list, in its order. */
    ghost predicate Valid()
      reads this, nodes
    {
      && Linked()
      && |contents| == |nodes|
      && (forall k {:trigger nodes[k].acc} :: 0 <= k < |nodes| ==> nodes[k].acc == contents[k])
    }

    constructor ()
      ensures Valid() && nodes == [] && contents == []
    {
      head, tail, nodes, contents := null, null, [], [];
    }

    /** The node reached from `head` along `next`. */
    ghost function Forward(hops: nat): (n: ListNode?)
      requires Valid()
      reads this, nodes
      ensures n != null ==> n in nodes
    {
      if hops == 0 then head
      else
        var n := Forward(hops - 1);
        if n == null then null
        else
          n.next
    }

    /** The node reached from `tail` along `prev`. */
    ghost function Backward(hops: nat): (n: ListNode?)
      requires Valid()
      reads this, nodes
      ensures n != null ==> n in nodes
    {
      if hops == 0 then tail
      else
        var n := Backward(hops - 1);
        if n == null then null
        else
          n.prev
    }

    lemma AtIs(k: nat)
      requires Valid() && k < |contents|
      ensures At(k) != null && At(k).acc == contents[k] && At(k).next == At(k + 1)
    {
    }

    lemma {:induction false} ForwardIs(hops: nat)
      requires Valid()
      ensures Forward(hops) == At(hops)
    {
      if hops > 0 { ForwardIs(hops - 1); }
    }

    lemma {:induction false} BackwardIs(hops: nat)
      requires Valid()
      ensures Backward(hops) == At(|nodes| - 1 - hops)
    {
      if hops > 0 { BackwardIs(hops - 1); }
    }

    /** Both walks end after the last account, and the backward one meets the same nodes in reverse. */
    lemma WalksMirror(hops: nat)
      requires Valid()
      ensures hops < |nodes| ==> Backward(hops) == Forward(|nodes| - 1 - hops) != null
      ensures hops >= |nodes| ==> Forward(hops) == null && Backward(hops) == null
    {
      BackwardIs(hops);
      ForwardIs(hops);
      if hops < |nodes| { ForwardIs(|nodes| - 1 - hops); }
    }

    method AddNode(a: Account)
      requires Valid()
      modifies this, nodes
      ensures Valid() && contents == old(contents) + [a]
      ensures |nodes| == |old(nodes)| + 1 && nodes[..|old(nodes)|] == old(nodes) && fresh(nodes[|old(nodes)|])
    {
      var n := new ListNode(a, tail);
      if head == null { head := n; }
      if tail != null { tail.next := n; }
      tail := n;
      nodes, contents := nodes + [n], contents + [a];
    }

    method GetNode(id: int) returns (n: ListNode?)
      requires Valid()
      ensures n == At(Find(contents, id))
    {
      n := head;
      ghost var k := 0;
      while n != null
        invariant 0 <= k <= |nodes| && n == At(k)
        invariant forall i :: 0 <= i < k ==> contents[i].id != id
        decreases |nodes| - k
      {
        if n.acc.id == id {
          assert contents[k].id == id;
          FindIs(contents, id, k);
          return;
        }
        n, k := n.next, k + 1;
      }
    }

    method GetLength() returns (len: nat)
      requires Valid()
      ensures len == |contents|
    {
      len := 0;
      var n := head;
      while n != null
        invariant 0 <= len <= |nodes| && n == At(len)
        decreases |nodes| - len
      {
        len, n := len + 1, n.next;
      }
    }

    method UnlinkFirst()
      requires Valid() && |nodes| > 1
      modifies this, nodes
      ensures Valid() && nodes == old(nodes)[1..] && contents == old(contents)[1..]
    {
      head := head.next;
      head.prev := null;
      nodes, contents := nodes[1..], contents[1..];
    }

    method UnlinkLast()
      requires Valid() && |nodes| > 1
      modifies this, nodes
      ensures Valid() && nodes == old(nodes)[..|old(nodes)| - 1] && contents == old(contents)[..|old(nodes)| - 1]
    {
      tail := tail.prev;
      tail.next := null;
      nodes, contents := nodes[..|nodes| - 1], contents[..|nodes| - 1];
    }

    method UnlinkInner(n: ListNode, ghost p: nat)
      requires Valid() && 0 < p < |nodes| - 1 && n == nodes[p]
      modifies this, nodes
      ensures Valid() && nodes == old(nodes)[..p] + old(nodes)[p + 1..]
      ensures contents == old(contents)[..p] + old(contents)[p + 1..]
    {
      n.prev.next := n.next;
      n.next.prev := n.prev;
      nodes, contents := nodes[..p] + nodes[p + 1..], contents[..p] + contents[p + 1..];
    }

    /** Takes the node at position `p` out of a list of this length. */
    method Unlink(n: ListNode, length: nat, ghost p: nat)
      requires Valid() && p < |nodes| == length && n == nodes[p]
      modifies this, nodes
      ensures Valid() && contents == old(contents)[..p] + old(contents)[p + 1..]
    {
      if length == 1 {
        head, tail, nodes, contents := null, null, [], [];
      } else if n == head {
        UnlinkFirst();
      } else if n == tail {
        UnlinkLast();
      } else {
        UnlinkInner(n, p);
      }
    }

    /** Takes out the first node with this ID. */
    method DelNode(id: int)
      requires Valid()
      modifies this, nodes
      ensures Valid() && contents == Remove(old(contents), id)
    {
      var n := GetNode(id);
      var length := GetLength();
      ghost var p := Find(contents, id);
      if n != null {
        assert p >= 0;
        Unlink(n, length, p);
      }
    }

    method DelAllNodes()
      requires Valid()
      modifies this
      ensures Valid() && contents == []
    {
      var n := head;
      ghost var k := 0;
      while n != null
        invariant 0 <= k <= |nodes| && n == At(k) && Valid()
        decreases |nodes| - k
      {
        n, k := n.next, k + 1;
      }
      head, tail, nodes, contents := null, null, [], [];
    }
  }

  /** accounts/account_management.c; what it saves to the configuration file is the subject of ConfigWriters. */
  class AccountManager {
    var counter: int
    const list: AccountList

    ghost predicate Valid()
      reads this, list, list.nodes
    {
      list.Valid()
    }

    ghost function State(): Store
      reads this, list
    {
      Store(counter, list.contents)
    }

    /** The counter starts as the compiler leaves it, until Init. */
    constructor (list: AccountList)
      requires list.Valid()
      ensures this.list == list && Valid() && State() == Store(0, list.contents)
    {
      this.list, counter := list, 0;
    }

    method GetMaxId() returns (max: int)
      requires Valid()
      ensures max == MaxId(list.contents)
    {
      max := 0;
      var n := list.head;
      ghost var k := 0;
      while n != null
        invariant 0 <= k <= |list.nodes| && n == list.At(k)
        invariant max == MaxId(list.contents[..k])
        decreases |list.nodes| - k
      {
        assert list.contents[..k + 1][..k] == list.contents[..k];
        assert n.acc == list.contents[k];
        if n.acc.id > max { max := n.acc.id; }
        n, k := n.next, k + 1;
      }
      assert list.contents[..k] == list.contents;
    }

    method Init()
      requires Valid()
      modifies this
      ensures Valid() && State() == Store(MaxId(list.contents), list.contents) && list.contents == old(list.contents)
    {
      counter := GetMaxId();
    }

    method CreateAccount() returns (id: int)
      requires Valid()
      modifies this, list, list.nodes
      ensures Valid() && State() == Create(old(State())) && id == State().counter
    {
      counter := Increment(counter);
      list.AddNode(Blank(counter));
      id := counter;
    }

    method DeleteAccount(id: int)
      requires Valid()
      modifies list, list.nodes
      ensures Valid() && State() == Delete(old(State()), id)
    {
      list.DelNode(id);
    }

    method SetAccount(id: int, attribute: string, value: Option<string>) returns (ok: bool)
      requires Valid() && (value.None? ==> !Numeric(attribute))
      modifies list`contents, list.nodes
      ensures Valid() && counter == old(counter)
      ensures (list.contents, ok) == Set(old(list.contents), id, attribute, value)
    {
      var n := list.GetNode(id);
      if n == null { return false; }
      ghost var p := Find(list.contents, id);
      var a := Assign(n.acc, attribute, value);
      if a.None? { return false; }
      n.acc := a.value;
      list.contents := list.contents[p := a.value];
      ok := true;
    }

    /** Fills an array of the caller's with the accounts, unless they are too many. */
    method GetAllAccounts(accounts: array<Account>, max: int) returns (length: nat)
      requires Valid() && max <= accounts.Length
      modifies accounts
      ensures length <= accounts.Length
      ensures accounts[..length] == if |list.contents| < max then list.contents else []
    {
      length := list.GetLength();
      if length < max {
        var i := 0;
        var n := list.head;
        while n != null
          invariant 0 <= i <= |list.nodes| && n == list.At(i)
          invariant accounts[..i] == list.contents[..i]
          decreases |list.nodes| - i
        {
          accounts[i] := n.acc;
          n, i := n.next, i + 1;
        }
      } else {
        length := 0;
      }
    }

    /** The account whose address an incoming call carries. */
    method GetAccountByCalleeUri(uri: Option<string>, max: nat) returns (id: int)
      requires Valid() && Searchable(list.contents, uri, max)
      ensures id == IdOfCallee(list.contents, uri, max)
    {
      var accounts := new Account[max];
      if uri.None? { return -1; }
      var (protocol, afterProtocol) := Strtok(uri.value, {':'});
      if protocol != Some("sip") { return -1; }
      var (user, afterUser) := Strtok(afterProtocol, {'@'});
      if user.None? { return -1; }
      var (domain, rest) := Strtok(afterUser, {});
      if domain.None? { return -1; }
      var length := GetAllAccounts(accounts, max);
      ghost var listed := Listed(list.contents, max);
      var i := 0;
      while i < length
        invariant 0 <= i <= length == |listed| <= accounts.Length && accounts[..length] == listed
        invariant Comparable(listed[i..], user.value, domain.value)
        invariant IdOfUser(listed[i..], user.value, domain.value) == IdOfUser(listed, user.value, domain.value)
      {
        assert accounts[i] == listed[i];
        if accounts[i].username.value == user.value && accounts[i].domain.value == domain.value {
          return accounts[i].id;
        }
        assert listed[i..][1..] == listed[i + 1..];
        i := i + 1;
      }
      id := -1;
    }
  }
}
