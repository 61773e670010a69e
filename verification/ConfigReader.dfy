/**
 The callbacks that util/config/xml/config_reader.c gives to Expat, over its flags, the configuration and the
 list.
 */
module ConfigReaders {
  import opened Options
  import opened AccountSpec
  import opened AccountLists
  import opened Configs
  import opened ConfigReading

  class ConfigReader {
    var within: set<Tag>
    var config: Config
    const list: AccountList

    ghost predicate Valid()
      reads this, list, list.nodes
    {
      list.Valid()
    }

    ghost function State(): Reader
      reads this, list
    {
      Reader(within, config, list.contents)
    }

    /** The flags start at 0, as C leaves globals. */
    constructor (config: Config, list: AccountList)
      requires list.Valid()
      ensures this.list == list && Valid() && State() == Reader({}, config, list.contents)
    {
      within, this.config, this.list := {}, config, list;
    }

    /** The start of cr_init: every flag but that of "config" is set to 0. */
    method Reset()
      requires Valid()
      modifies this
      ensures Valid() && State() == old(State()).(within := old(within) * {ConfigTag})
    {
      within := within * {ConfigTag};
    }

    /** The loop that the parse functions of the configuration elements share. */
    method ParseAttributes(tag: Tag, attrs: seq<Attr>, ghost memory: Account)
      requires tag != AccountTag
      modifies this`config
      ensures config == SetAll(tag, Target(old(config), memory), attrs).config
    {
      ghost var t := Target(config, memory);
      assert attrs[..0] == [];
      var i := 0;
      while i < |attrs|
        invariant 0 <= i <= |attrs| && SetAll(tag, t, attrs[..i]) == Target(config, memory)
      {
        assert attrs[..i + 1][..i] == attrs[..i];
        config := SetConfig(tag, config, attrs[i].0, attrs[i].1);
        i := i + 1;
      }
      assert attrs[..i] == attrs;
    }

    /** A new account, in the memory malloc gives, is filled in and listed. */
    method ParseAccount(attrs: seq<Attr>, memory: nat -> Account)
      requires Valid()
      modifies list, list.nodes
      ensures Valid() && forall k :: 0 <= k < |list.nodes| ==> list.nodes[k] in old(list.nodes) || fresh(list.nodes[k])
      ensures list.contents == old(list.contents) +
                               [SetAll(AccountTag, Target(config, memory(|old(list.contents)|)), attrs).account]
    {
      var length := list.GetLength();
      var account := memory(length);
      ghost var t := Target(config, account);
      assert attrs[..0] == [];
      var i := 0;
      while i < |attrs|
        invariant 0 <= i <= |attrs| && SetAll(AccountTag, t, attrs[..i]) == Target(config, account)
      {
        assert attrs[..i + 1][..i] == attrs[..i];
        account := SetAccount(account, attrs[i].0, attrs[i].1);
        i := i + 1;
      }
      assert attrs[..i] == attrs;
      list.AddNode(account);
    }

    /** The tests that cr_elem_start and cr_elem_end share: the element this tag is taken for, if for any. */
    method Recognise(name: string) returns (tag: Option<Tag>)
      ensures tag == Recognised(within, name)
    {
      tag := Test(name);
      if tag.Some? { TagOfName(tag.value); } else { NoTag(within, name); }
    }

    /** The whole chain of tests, in its order. */
    method Test(name: string) returns (tag: Option<Tag>)
      ensures tag.Some? ==> Noticed(within, tag.value) && name == NameOf(tag.value)
      ensures tag.None? ==> forall t: Tag :: Noticed(within, t) ==> name != NameOf(t)
    {
      if name == "config" { return Some(ConfigTag); }
      tag := TestUtil(name);
      if tag.None? { tag := TestCore(name); }
      if tag.None? { tag := TestRemote(name); }
      if tag.None? { tag := TestSipstack(name); }
      if tag.None? { tag := TestAccounts(name); }
    }

    method TestUtil(name: string) returns (tag: Option<Tag>)
      ensures tag.Some? ==> Noticed(within, tag.value) && name == NameOf(tag.value)
      ensures tag.None? ==> forall t: Tag :: Part(t) == Util && Noticed(within, t) ==> name != NameOf(t)
    {
      if ConfigTag in within && name == "util" { return Some(Util); }
      if Util in within && name == "logging" { return Some(Logging); }
      if Logging in within && name == "simplelogger" { return Some(SimpleLogger); }
      if SimpleLogger in within && name == "console" { return Some(Console); }
      if SimpleLogger in within && name == "file" { return Some(File); }
      if Util in within && name == "threadmanagement" { return Some(ThreadManagement); }
      if ThreadManagement in within && name == "threads" { return Some(Threads); }
      tag := None;
    }

    method TestCore(name: string) returns (tag: Option<Tag>)
      ensures tag.Some? ==> Noticed(within, tag.value) && name == NameOf(tag.value)
      ensures tag.None? ==> forall t: Tag :: Part(t) == Core && Noticed(within, t) ==> name != NameOf(t)
    {
      if ConfigTag in within && name == "core" { return Some(Core); }
      if Core in within && name == "events" { return Some(Events); }
      if Events in within && name == "dispatcher" { return Some(Dispatcher); }
      if Core in within && name == "sipoutput" { return Some(SipOutput); }
      if SipOutput in within && name == "registrarmanager" { return Some(RegistrarManager); }
      tag := None;
    }

    method TestRemote(name: string) returns (tag: Option<Tag>)
      ensures tag.Some? ==> Noticed(within, tag.value) && name == NameOf(tag.value)
      ensures tag.None? ==> forall t: Tag :: Part(t) == Remote && Noticed(within, t) ==> name != NameOf(t)
    {
      if ConfigTag in within && name == "remote" { return Some(Remote); }
      if Remote in within && name == "callback" { return Some(Callback); }
      if Callback in within && name == "xmlrpcclient" { return Some(XmlrpcClient); }
      if Remote in within && name == "server" { return Some(Server); }
      if Server in within && name == "xmlrpcserver" { return Some(XmlrpcServer); }
      tag := None;
    }

    method TestSipstack(name: string) returns (tag: Option<Tag>)
      ensures tag.Some? ==> Noticed(within, tag.value) && name == NameOf(tag.value)
      ensures tag.None? ==> forall t: Tag :: Part(t) == Sipstack && Noticed(within, t) ==> name != NameOf(t)
    {
      if ConfigTag in within && name == "sipstack" { return Some(Sipstack); }
      if Sipstack in within && name == "exosipadapter" { return Some(ExosipAdapter); }
      tag := None;
    }

    method TestAccounts(name: string) returns (tag: Option<Tag>)
      ensures tag.Some? ==> Noticed(within, tag.value) && name == NameOf(tag.value)
      ensures tag.None? ==> forall t: Tag :: Part(t) == Accounts && Noticed(within, t) ==> name != NameOf(t)
    {
      if ConfigTag in within && name == "accounts" { return Some(Accounts); }
      if Accounts in within && name == "list" { return Some(List); }
      if List in within && name == "account" { return Some(AccountTag); }
      if Accounts in within && name == "accountmanagement" { return Some(AccountManagement); }
      tag := None;
    }

    method ElemStart(name: string, attrs: seq<Attr>, memory: nat -> Account)
      requires Valid()
      modifies this, list, list.nodes
      ensures Valid() && State() == Handle(old(State()), Start(name, attrs), memory)
      ensures forall k :: 0 <= k < |list.nodes| ==> list.nodes[k] in old(list.nodes) || fresh(list.nodes[k])
    {
      var tag := Recognise(name);
      if tag.None? { return; }
      if tag.value == AccountTag {
        ParseAccount(attrs, memory);
      } else {
        within := within + {tag.value};
        ParseAttributes(tag.value, attrs, memory(|list.contents|));
      }
    }

    method ElemEnd(name: string, ghost memory: nat -> Account)
      requires Valid()
      modifies this`within
      ensures Valid() && State() == Handle(old(State()), End(name), memory)
    {
      var tag := Recognise(name);
      if tag.Some? && tag.value != AccountTag { within := within - {tag.value}; }
    }

    /** cr_init on a file that Expat reports as these events. */
    method Init(events: seq<Event>, memory: nat -> Account)
      requires Valid()
      modifies this, list, list.nodes
      ensures Valid()
      ensures State() == Read(old(State()).(within := old(within) * {ConfigTag}), events, memory)
    {
      Reset();
      ghost var r := State();
      assert events[..0] == [];
      var i := 0;
      while i < |events|
        invariant 0 <= i <= |events| && Valid() && State() == Read(r, events[..i], memory)
        invariant forall k :: 0 <= k < |list.nodes| ==> list.nodes[k] in old(list.nodes) || fresh(list.nodes[k])
      {
        assert events[..i + 1][..i] == events[..i];
        ghost var before := list.nodes;
        HandleEvent(events[i], memory);
        forall k | 0 <= k < |list.nodes| ensures list.nodes[k] in old(list.nodes) || fresh(list.nodes[k]) {
          if list.nodes[k] in before {
            var j :| 0 <= j < |before| && before[j] == list.nodes[k];
          }
        }
        i := i + 1;
      }
      assert events[..i] == events;
    }

    /** Expat calls one of the two handlers for each event. */
    method HandleEvent(e: Event, memory: nat -> Account)
      requires Valid()
      modifies this, list, list.nodes
      ensures Valid() && State() == Handle(old(State()), e, memory)
      ensures forall k :: 0 <= k < |list.nodes| ==> list.nodes[k] in old(list.nodes) || fresh(list.nodes[k])
    {
      match e
      case Start(name, attrs) => ElemStart(name, attrs, memory);
      case End(name) => ElemEnd(name, memory);
    }
  }

  /** The part of the configuration an element belongs to. */
  function Part(tag: Tag): Tag {
    match tag
    case ConfigTag => ConfigTag
    case Util => Util
    case Logging => Util
    case SimpleLogger => Util
    case Console => Util
    case File => Util
    case ThreadManagement => Util
    case Threads => Util
    case Core => Core
    case Events => Core
    case Dispatcher => Core
    case SipOutput => Core
    case RegistrarManager => Core
    case Remote => Remote
    case Callback => Remote
    case XmlrpcClient => Remote
    case Server => Remote
    case XmlrpcServer => Remote
    case Sipstack => Sipstack
    case ExosipAdapter => Sipstack
    case Accounts => Accounts
    case List => Accounts
    case AccountTag => Accounts
    case AccountManagement => Accounts
  }

  function Recognised(within: set<Tag>, name: string): Option<Tag> {
    var tag := TagOf(name);
    if tag.Some? && Noticed(within, tag.value) then tag else None
  }

  lemma {:induction false} TagInNames(tags: seq<Tag>, name: string)
    ensures TagIn(tags, name).Some? ==> NameOf(TagIn(tags, name).value) == name
  {
    if tags != [] { TagInNames(tags[1..], name); }
  }

  lemma NoTag(within: set<Tag>, name: string)
    requires forall t: Tag :: Noticed(within, t) ==> name != NameOf(t)
    ensures Recognised(within, name).None?
  {
    TagInNames(ALL_TAGS, name);
  }
}
