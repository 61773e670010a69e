/** The account list and the ID counter of accounts/account_management.c, as values. */
module AccountSpec {
  import opened Options
  import opened Decimals
  import opened SipUri

  /** struct account; a string is None where the source holds NULL. */
  datatype Account = Account(id: int, autoregister: int, name: Option<string>, username: Option<string>,
                             domain: Option<string>, authusername: Option<string>, password: Option<string>,
                             displayname: Option<string>, outboundproxy: Option<string>, registrar: Option<string>)

  /** The global counter `id` and the list. */
  datatype Store = Store(counter: int, accounts: seq<Account>)

  /** get_node: the first position that holds this ID, or -1. */
  function Find(accounts: seq<Account>, id: int): (p: int)
    ensures -1 <= p < |accounts|
    ensures p >= 0 ==> accounts[p].id == id && forall i :: 0 <= i < p ==> accounts[i].id != id
    ensures p == -1 ==> forall i :: 0 <= i < |accounts| ==> accounts[i].id != id
  {
    if accounts == [] then -1
    else if accounts[0].id == id then 0
    else
      var p := Find(accounts[1..], id);
      if p == -1 then -1 else p + 1
  }

  /** The search is determined by its result. */
  lemma {:induction false} FindIs(accounts: seq<Account>, id: int, p: nat)
    requires p < |accounts| && accounts[p].id == id && forall i :: 0 <= i < p ==> accounts[i].id != id
    ensures Find(accounts, id) == p
  {
  }

  /** del_node: the first account with this ID goes. */
  function Remove(accounts: seq<Account>, id: int): seq<Account> {
    var p := Find(accounts, id);
    if p == -1 then accounts else accounts[..p] + accounts[p + 1..]
  }

  /** am_get_max_id: the search starts at 0. */
  function MaxId(accounts: seq<Account>): (max: int)
    ensures max >= 0 && forall a :: a in accounts ==> a.id <= max
    ensures max == 0 || exists a :: a in accounts && a.id == max
  {
    if accounts == [] then 0
    else
      var last, max := accounts[|accounts| - 1], MaxId(accounts[..|accounts| - 1]);
      if last.id > max then last.id else max
  }

  const INT_MAX := 0x7FFF_FFFF

  /** Incrementing a C int; past INT_MAX, which C leaves undefined, the usual wrap-around. */
  function Increment(n: int): int {
    if n == INT_MAX then -INT_MAX - 1 else n + 1
  }

  function Blank(id: int): Account {
    Account(id, 0, None, None, None, None, None, None, None, None)
  }

  function Create(s: Store): Store {
    Store(Increment(s.counter), s.accounts + [Blank(Increment(s.counter))])
  }

  function Delete(s: Store, id: int): Store {
    s.(accounts := Remove(s.accounts, id))
  }

  /** The two attributes that am_account_set stores with atoi, which needs a value. */
  predicate Numeric(attribute: string) {
    attribute == "id" || attribute == "autoregister"
  }

  /** One assignment of am_account_set, or None for an attribute it does not know. */
  function Assign(a: Account, attribute: string, value: Option<string>): Option<Account>
    requires value.None? ==> !Numeric(attribute)
  {
    var text := Some(if value.None? then "" else value.value);
    if attribute == "id" then Some(a.(id := Atoi(text.value)))
    else if attribute == "name" then Some(a.(name := text))
    else if attribute == "username" then Some(a.(username := text))
    else if attribute == "domain" then Some(a.(domain := text))
    else if attribute == "authusername" then Some(a.(authusername := text))
    else if attribute == "password" then Some(a.(password := text))
    else if attribute == "displayname" then Some(a.(displayname := text))
    else if attribute == "outboundproxy" then Some(a.(outboundproxy := text))
    else if attribute == "registrar" then Some(a.(registrar := text))
    else if attribute == "autoregister" then Some(a.(autoregister := Atoi(text.value)))
    else None
  }

  /** am_account_set: the new list, and whether it returns 1. */
  function Set(accounts: seq<Account>, id: int, attribute: string, value: Option<string>): (seq<Account>, bool)
    requires value.None? ==> !Numeric(attribute)
  {
    var p := Find(accounts, id);
    if p == -1 then (accounts, false)
    else
      var a := Assign(accounts[p], attribute, value);
      if a.None? then (accounts, false) else (accounts[p := a.value], true)
  }

  // ---- the ID of a new account ----

  datatype Op = CreateAccount | DeleteAccount(id: int) | SetAttribute(id: int, attribute: string, value: string)

  /** A history: the store, every ID that was ever listed, and those among them written by setting "id". */
  datatype History = History(store: Store, seen: set<int>, written: set<int>, creations: nat)

  function Ids(accounts: seq<Account>): set<int> {
    set a | a in accounts :: a.id
  }

  function Perform(s: Store, op: Op): Store {
    match op
    case CreateAccount => Create(s)
    case DeleteAccount(id) => Delete(s, id)
    case SetAttribute(id, attribute, value) => s.(accounts := Set(s.accounts, id, attribute, Some(value)).0)
  }

  /** One operation after a history. */
  function Record(h: History, op: Op): History {
    var next := Perform(h.store, op);
    var sets := op.SetAttribute? && op.attribute == "id" && Find(h.store.accounts, op.id) != -1;
    History(next, h.seen + Ids(next.accounts), h.written + (if sets then {Atoi(op.value)} else {}),
            h.creations + if op.CreateAccount? then 1 else 0)
  }

  /** am_init on a list, then the operations in turn. */
  function Replay(initial: seq<Account>, ops: seq<Op>): History {
    if ops == [] then History(Store(MaxId(initial), initial), Ids(initial), {}, 0)
    else Record(Replay(initial, ops[..|ops| - 1]), ops[|ops| - 1])
  }

  /** Removing or changing an account brings in no ID but one that "id" was set to. */
  lemma IdsAfter(s: Store, op: Op)
    ensures var next := Perform(s, op);
            match op
            case CreateAccount => Ids(next.accounts) == Ids(s.accounts) + {Increment(s.counter)}
            case DeleteAccount(id) => Ids(next.accounts) <= Ids(s.accounts)
            case SetAttribute(id, attribute, value) =>
              if attribute == "id" && Find(s.accounts, id) != -1
              then Ids(next.accounts) <= Ids(s.accounts) + {Atoi(value)} && Atoi(value) in Ids(next.accounts)
              else Ids(next.accounts) <= Ids(s.accounts)
  {
    match op
    case CreateAccount =>
      var next := Perform(s, op).accounts;
      assert next[|s.accounts|] == Blank(Increment(s.counter));
      assert forall i :: 0 <= i < |s.accounts| ==> next[i] == s.accounts[i];
    case DeleteAccount(id) =>
    case SetAttribute(id, attribute, value) =>
      var p, next := Find(s.accounts, id), Perform(s, op).accounts;
      if p != -1 {
        forall a | a in next ensures a == next[p] || a in s.accounts {
        }
        assert next[p] in next;
      }
  }

  /** The IDs of the list at the start are C ints. */
  predicate IntIds(initial: seq<Account>) {
    forall a :: a in initial ==> a.id <= INT_MAX
  }

  /** Where the counter stands: the highest listed ID at the start plus one for each creation, while there is room. */
  ghost predicate CounterOk(start: nat, h: History) {
    var top := start + h.creations;
    if top <= INT_MAX
    then
      && h.store.counter == top
      && (top == 0 || top in h.seen)
      && (forall i :: i in h.seen && i !in h.written ==> i <= top)
    else h.store.counter <= INT_MAX && INT_MAX in h.seen
  }

  /** Every listed ID has been seen, and so has every written one. */
  ghost predicate SeenOk(h: History) {
    Ids(h.store.accounts) <= h.seen && h.written <= h.seen
  }

  lemma SeenStep(h: History, op: Op)
    requires SeenOk(h)
    ensures SeenOk(Record(h, op))
  {
    IdsAfter(h.store, op);
  }

  lemma CreationStep(start: nat, h: History)
    requires CounterOk(start, h) && SeenOk(h)
    ensures CounterOk(start, Record(h, CreateAccount))
  {
    IdsAfter(h.store, CreateAccount);
  }

  lemma OtherStep(start: nat, h: History, op: Op)
    requires CounterOk(start, h) && SeenOk(h) && !op.CreateAccount?
    ensures CounterOk(start, Record(h, op))
  {
    IdsAfter(h.store, op);
  }

  lemma {:induction false} CounterKept(initial: seq<Account>, ops: seq<Op>)
    requires IntIds(initial)
    ensures CounterOk(MaxId(initial), Replay(initial, ops)) && SeenOk(Replay(initial, ops))
    decreases |ops|
  {
    if ops != [] {
      var h, op := Replay(initial, ops[..|ops| - 1]), ops[|ops| - 1];
      CounterKept(initial, ops[..|ops| - 1]);
      SeenStep(h, op);
      if op.CreateAccount? { CreationStep(MaxId(initial), h); } else { OtherStep(MaxId(initial), h, op); }
    }
  }

  /**
   A new account's ID exceeds every ID listed or created before it, deleted ones included, exactly if the counter has
   room left and no "id" was ever set above what the counter has reached.
   */
  lemma {:induction false} NewIdIsFreshIff(initial: seq<Account>, ops: seq<Op>)
    requires IntIds(initial)
    ensures var h := Replay(initial, ops);
            var top := MaxId(initial) + h.creations;
            (forall i :: i in h.seen ==> i < Create(h.store).counter)
            <==> top < INT_MAX && forall i :: i in h.written ==> i <= top
  {
    CounterKept(initial, ops);
    var h := Replay(initial, ops);
    var top := MaxId(initial) + h.creations;
    if top >= INT_MAX {
      assert INT_MAX in h.seen;
      assert Create(h.store).counter <= INT_MAX;
    }
  }

  /** While the counter has room, a new ID repeats an earlier one exactly if "id" was set to it. */
  lemma {:induction false} NewIdRepeatsIff(initial: seq<Account>, ops: seq<Op>, h: History, top: nat)
    requires IntIds(initial) && h == Replay(initial, ops) && top == MaxId(initial) + h.creations < INT_MAX
    ensures Create(h.store).counter in h.seen <==> top + 1 in h.written
  {
    ReplayIsRoomy(initial, ops, top);
    RoomyIff(top, h);
  }

  /** What CounterKept says while there is room. */
  predicate Roomy(top: nat, h: History) {
    && h.store.counter == top && h.written <= h.seen
    && forall i :: i in h.seen && i !in h.written ==> i <= top
  }

  lemma {:induction false} ReplayIsRoomy(initial: seq<Account>, ops: seq<Op>, top: nat)
    requires IntIds(initial) && top == MaxId(initial) + Replay(initial, ops).creations < INT_MAX
    ensures Roomy(top, Replay(initial, ops))
  {
    CounterKept(initial, ops);
  }

  lemma {:induction false} RoomyIff(top: nat, h: History)
    requires Roomy(top, h) && top < INT_MAX
    ensures Create(h.store).counter in h.seen <==> top + 1 in h.written
  {
    assert Create(h.store).counter == top + 1;
  }

  /** It does so after one account was created and its "id" set to 2: the next one has the same ID. */
  lemma TwoAccountsWithOneId()
    ensures var h := Replay([], [CreateAccount, SetAttribute(1, "id", "2")]);
            Create(h.store).accounts == [Blank(2), Blank(2)] && 2 in h.written
  {
    var ops := [CreateAccount, SetAttribute(1, "id", "2")];
    assert ops[..1] == [CreateAccount] && ops[..1][..0] == [];
    var start, first := Replay([], []), Replay([], [CreateAccount]);
    assert start.store == Store(0, []);
    assert first == Record(start, CreateAccount);
    assert first.store == Store(1, [Blank(1)]);
    SetToTwo(first);
    assert Replay([], ops) == Record(first, ops[1]);
  }

  lemma SetToTwo(h: History)
    requires h.store == Store(1, [Blank(1)])
    ensures Record(h, SetAttribute(1, "id", "2")).store == Store(1, [Blank(2)])
    ensures 2 in Record(h, SetAttribute(1, "id", "2")).written
  {
    AtoiTwo();
    assert Find([Blank(1)], 1) == 0;
    assert [Blank(1)][0 := Blank(2)] == [Blank(2)];
  }

  lemma AtoiTwo()
    ensures Atoi("2") == 2
  {
    assert Leading("2") == 1 && "2"[..1] == "2" && "2"[..0] == "";
    assert Number("2") == Value('2') == 2;
  }

  lemma {:induction false} NoIdWritten(initial: seq<Account>, ops: seq<Op>)
    requires forall i :: 0 <= i < |ops| ==> ops[i].SetAttribute? ==> ops[i].attribute != "id"
    ensures Replay(initial, ops).written == {}
    decreases |ops|
  {
    if ops != [] { NoIdWritten(initial, ops[..|ops| - 1]); }
  }

  /** So while "id" is never set and the counter has room, the IDs created over a run are all new. */
  lemma CreatedIdsAreNew(initial: seq<Account>, ops: seq<Op>)
    requires IntIds(initial) && MaxId(initial) + Replay(initial, ops).creations < INT_MAX
    requires forall i :: 0 <= i < |ops| ==> ops[i].SetAttribute? ==> ops[i].attribute != "id"
    ensures Create(Replay(initial, ops).store).counter !in Replay(initial, ops).seen
    ensures forall i :: i in Replay(initial, ops).seen ==> i < Create(Replay(initial, ops).store).counter
  {
    NoIdWritten(initial, ops);
    NewIdIsFreshIff(initial, ops);
  }

  // ---- finding the account a call is for ----

  /** The strcmp calls of the search, up to the first match, meet no NULL. */
  predicate Comparable(accounts: seq<Account>, user: string, domain: string) {
    accounts == [] ||
    (var a := accounts[0];
     && a.username.Some?
     && (a.username.value == user ==> a.domain.Some?)
     && ((a.username.value == user && a.domain.value == domain) || Comparable(accounts[1..], user, domain)))
  }

  /** The ID of the first account with this user and domain, or -1. */
  function IdOfUser(accounts: seq<Account>, user: string, domain: string): int
    requires Comparable(accounts, user, domain)
  {
    if accounts == [] then -1
    else if accounts[0].username.value == user && accounts[0].domain.value == domain then accounts[0].id
    else IdOfUser(accounts[1..], user, domain)
  }

  /** am_get_all_accounts gives nothing if the list is as long as the configured maximum. */
  function Listed(accounts: seq<Account>, max: int): seq<Account> {
    if |accounts| < max then accounts else []
  }

  predicate Searchable(accounts: seq<Account>, uri: Option<string>, max: int) {
    uri.Some? && Parse(uri.value).Some? ==>
      var (user, domain) := Parse(uri.value).value; Comparable(Listed(accounts, max), user, domain)
  }

  /** am_get_account_by_callee_uri */
  function IdOfCallee(accounts: seq<Account>, uri: Option<string>, max: int): int
    requires Searchable(accounts, uri, max)
  {
    if uri.None? || Parse(uri.value).None? then -1
    else
      var (user, domain) := Parse(uri.value).value;
      IdOfUser(Listed(accounts, max), user, domain)
  }

  predicate Named(accounts: seq<Account>) {
    forall a :: a in accounts ==> a.username.Some? && a.domain.Some?
  }

  predicate Is(a: Account, user: string, domain: string) {
    a.username == Some(user) && a.domain == Some(domain)
  }

  lemma {:induction false} NamedIsComparable(accounts: seq<Account>, user: string, domain: string)
    requires Named(accounts)
    ensures Comparable(accounts, user, domain)
  {
    if accounts != [] {
      assert accounts[0] in accounts;
      NamedIsComparable(accounts[1..], user, domain);
    }
  }

  lemma {:induction false} IdOfUserIs(accounts: seq<Account>, user: string, domain: string) returns (k: nat)
    requires Comparable(accounts, user, domain)
    ensures k <= |accounts| && forall i :: 0 <= i < k ==> !Is(accounts[i], user, domain)
    ensures k < |accounts| ==> Is(accounts[k], user, domain) && IdOfUser(accounts, user, domain) == accounts[k].id
    ensures k == |accounts| ==> IdOfUser(accounts, user, domain) == -1
  {
    if accounts == [] || Is(accounts[0], user, domain) {
      k := 0;
    } else {
      var rest := IdOfUserIs(accounts[1..], user, domain);
      k := rest + 1;
    }
  }

  /** The search is safe to make for any address if every account has a user and a domain. */
  lemma NamedIsSearchable(accounts: seq<Account>, uri: Option<string>, max: int)
    requires Named(accounts)
    ensures Searchable(accounts, uri, max)
  {
    if uri.Some? && Parse(uri.value).Some? {
      NamedIsComparable(Listed(accounts, max), Parse(uri.value).value.0, Parse(uri.value).value.1);
    }
  }

  /**
   An incoming call is for the first account whose own address it carries; a list as long as the configured maximum
   finds none, and neither does an address that no account can have.
   */
  lemma CalleeIsFirstOwner(accounts: seq<Account>, user: string, domain: string, max: int) returns (k: nat)
    requires Named(accounts) && user != "" && '@' !in user && domain != ""
    ensures Searchable(accounts, Some(Address(user, domain)), max)
    ensures k <= |accounts| && forall i :: 0 <= i < k ==> !Is(accounts[i], user, domain)
    ensures k < |accounts| ==> Is(accounts[k], user, domain)
    ensures IdOfCallee(accounts, Some(Address(user, domain)), max)
            == if k < |accounts| < max then accounts[k].id else -1
  {
    NamedIsSearchable(accounts, Some(Address(user, domain)), max);
    ParseAddressIff(user, domain);
    NamedIsComparable(accounts, user, domain);
    k := IdOfUserIs(accounts, user, domain);
  }

  /** The From address of a call leads back to the account it was placed from, unless an earlier one has the same. */
  lemma OwnAddressFindsOwn(accounts: seq<Account>, k: nat, max: int, callee: Option<string>)
    requires Named(accounts) && k < |accounts| < max && callee.Some? && callee.value != ""
    requires var a := accounts[k]; a.username.value != "" && '@' !in a.username.value && a.domain.value != ""
    requires forall i :: 0 <= i < k ==> !Is(accounts[i], accounts[k].username.value, accounts[k].domain.value)
    ensures var a := accounts[k];
            var from := FromAndTo(Some((a.username.value, a.domain.value)), callee).value.0;
            Searchable(accounts, Some(from), max) && IdOfCallee(accounts, Some(from), max) == a.id
  {
    var a := accounts[k];
    var j := CalleeIsFirstOwner(accounts, a.username.value, a.domain.value, max);
    assert Is(a, a.username.value, a.domain.value);
  }

  /** An account that is given a user and a domain is found by its address, unless an earlier one has the same. */
  lemma SetAccountIsFound(accounts: seq<Account>, id: int, user: string, domain: string, max: int)
    requires user != "" && '@' !in user && domain != "" && |accounts| < max
    requires var p := Find(accounts, id);
             && p != -1 && Named(accounts[..p]) && Named(accounts[p + 1..])
             && forall i :: 0 <= i < p ==> !Is(accounts[i], user, domain)
    ensures var named := Set(Set(accounts, id, "username", Some(user)).0, id, "domain", Some(domain)).0;
            && Searchable(named, Some(Address(user, domain)), max)
            && IdOfCallee(named, Some(Address(user, domain)), max) == id
  {
    var p := Find(accounts, id);
    var named := accounts[p := accounts[p].(username := Some(user), domain := Some(domain))];
    BothSet(accounts, id, user, domain);
    NamedAround(accounts, p, named[p]);
    var k := CalleeIsFirstOwner(named, user, domain, max);
    assert Is(named[p], user, domain);
  }

  lemma NamedAround(accounts: seq<Account>, p: nat, a: Account)
    requires p < |accounts| && Named(accounts[..p]) && Named(accounts[p + 1..]) && a.username.Some? && a.domain.Some?
    ensures Named(accounts[p := a])
  {
    forall x | x in accounts[p := a] ensures x.username.Some? && x.domain.Some? {
      var i :| 0 <= i < |accounts| && accounts[p := a][i] == x;
      if i < p { assert x in accounts[..p]; } else if i > p { assert x == accounts[p + 1..][i - p - 1]; }
    }
  }

  lemma BothSet(accounts: seq<Account>, id: int, user: string, domain: string)
    requires Find(accounts, id) != -1
    ensures var p := Find(accounts, id);
            Set(Set(accounts, id, "username", Some(user)).0, id, "domain", Some(domain)).0
            == accounts[p := accounts[p].(username := Some(user), domain := Some(domain))]
  {
    var p := Find(accounts, id);
    var a := accounts[p].(username := Some(user));
    AssignNames(accounts[p], a, user, domain);
    FindIs(accounts[p := a], id, p);
    assert accounts[p := a][p := a.(domain := Some(domain))] == accounts[p := a.(domain := Some(domain))];
  }

  lemma AssignNames(a: Account, b: Account, user: string, domain: string)
    ensures Assign(a, "username", Some(user)) == Some(a.(username := Some(user)))
    ensures Assign(b, "domain", Some(domain)) == Some(b.(domain := Some(domain)))
  {
  }
}
