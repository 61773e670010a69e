/** What util/config/xml/config_reader.c makes of a stream of element events. */
module ConfigReading {
  import opened Options
  import opened AccountSpec
  import opened Decimals
  import opened Configs

  /** The `within*` flags that are set, the configuration and the account list. */
  datatype Reader = Reader(within: set<Tag>, config: Config, accounts: seq<Account>)

  /** The elements in the order in which the reader tests for them. */
  const ALL_TAGS: seq<Tag> := [
    ConfigTag, Util, Logging, SimpleLogger, Console, File, ThreadManagement, Threads, Core, Events, Dispatcher,
    SipOutput,
    RegistrarManager, Remote, Callback, XmlrpcClient, Server, XmlrpcServer, Sipstack, ExosipAdapter, Accounts, List,
    AccountTag, AccountManagement
  ]

  function TagIn(tags: seq<Tag>, name: string): Option<Tag> {
    if tags == [] then None else if NameOf(tags[0]) == name then Some(tags[0]) else TagIn(tags[1..], name)
  }

  /** The element a name stands for. */
  function TagOf(name: string): Option<Tag> {
    TagIn(ALL_TAGS, name)
  }

  /** The element whose flag must be set for this one to be noticed. */
  function ParentOf(tag: Tag): Tag
    requires tag != ConfigTag
  {
    match tag
    case Accounts => ConfigTag
    case Core => ConfigTag
    case Remote => ConfigTag
    case Sipstack => ConfigTag
    case Util => ConfigTag
    case Logging => Util
    case SimpleLogger => Logging
    case Console => SimpleLogger
    case File => SimpleLogger
    case ThreadManagement => Util
    case Threads => ThreadManagement
    case Server => Remote
    case Callback => Remote
    case XmlrpcServer => Server
    case XmlrpcClient => Callback
    case Events => Core
    case Dispatcher => Events
    case List => Accounts
    case ExosipAdapter => Sipstack
    case AccountManagement => Accounts
    case SipOutput => Core
    case RegistrarManager => SipOutput
    case AccountTag => List
  }

  predicate Noticed(within: set<Tag>, tag: Tag) {
    tag == ConfigTag || ParentOf(tag) in within
  }

  // ---- attributes ----

  function SetConsole(c: ConsoleCfg, n: string, v: string): ConsoleCfg {
    if n == "enabled" then c.(enabled := ParseBool(v))
    else if n == "loglevel" then c.(logLevel := ParseLoglevel(v))
    else c
  }

  function SetFile(f: FileCfg, n: string, v: string): FileCfg {
    if n == "enabled" then f.(enabled := ParseBool(v))
    else if n == "filename" then f.(fileName := Some(v))
    else if n == "loglevel" then f.(logLevel := ParseLoglevel(v))
    else if n == "withtime" then f.(withTime := ParseBool(v))
    else if n == "verbose" then f.(verbose := ParseBool(v))
    else if n == "threadid" then f.(threadId := ParseBool(v))
    else f
  }

  function SetDispatcher(d: DispatcherCfg, n: string, v: string): DispatcherCfg {
    if n == "maxcalls" then d.(maxCalls := Atoi(v))
    else if n == "maxevents" then d.(maxEvents := Atoi(v))
    else d
  }

  function SetClient(c: ClientCfg, n: string, v: string): ClientCfg {
    if n == "name" then c.(name := Some(v))
    else if n == "version" then c.(version := Some(v))
    else c
  }

  function SetServer(s: ServerCfg, n: string, v: string): ServerCfg {
    if n == "port" then s.(port := Atoi(v))
    else if n == "registerprefix" then s.(registerPrefix := Some(v))
    else if n == "logfilename" then s.(logFileName := Some(v))
    else s
  }

  function SetRegistrar(r: RegistrarCfg, n: string, v: string): RegistrarCfg {
    if n == "expire" then r.(expire := Atoi(v))
    else if n == "preexpirerange" then r.(preExpireRange := Atoi(v))
    else if n == "timeout" then r.(timeout := Atoi(v))
    else r
  }

  function SetManagement(m: ManagementCfg, n: string, v: string): ManagementCfg {
    if n == "maxaccountidamount" then m.(maxAccountIdAmount := Atoi(v))
    else if n == "maxvaluelength" then m.(maxValueLength := Atoi(v))
    else m
  }

  function SetAccount(a: Account, n: string, v: string): Account {
    if n == "name" then a.(name := Some(v))
    else if n == "username" then a.(username := Some(v))
    else if n == "domain" then a.(domain := Some(v))
    else if n == "authusername" then a.(authusername := Some(v))
    else if n == "password" then a.(password := Some(v))
    else if n == "displayname" then a.(displayname := Some(v))
    else if n == "outboundproxy" then a.(outboundproxy := Some(v))
    else if n == "registrar" then a.(registrar := Some(v))
    else if n == "autoregister" then a.(autoregister := ParseBool(v))
    else if n == "id" then a.(id := Atoi(v))
    else a
  }

  /** One attribute of an element, in the configuration. */
  function SetConfig(tag: Tag, c: Config, n: string, v: string): Config {
    match tag
    case Console => c.(console := SetConsole(c.console, n, v))
    case File => c.(file := SetFile(c.file, n, v))
    case Threads => if n == "maxamount" then c.(maxThreads := Atoi(v)) else c
    case Dispatcher => c.(dispatcher := SetDispatcher(c.dispatcher, n, v))
    case RegistrarManager => c.(registrar := SetRegistrar(c.registrar, n, v))
    case XmlrpcClient => c.(client := SetClient(c.client, n, v))
    case XmlrpcServer => c.(server := SetServer(c.server, n, v))
    case ExosipAdapter => if n == "port" then c.(sipPort := Atoi(v)) else c
    case AccountManagement => c.(management := SetManagement(c.management, n, v))
    case _ => c
  }

  /** What the attributes of an element go into: the configuration, or the account that is being read. */
  datatype Target = Target(config: Config, account: Account)

  function SetOne(tag: Tag, t: Target, n: string, v: string): Target {
    if tag == AccountTag then t.(account := SetAccount(t.account, n, v))
    else t.(config := SetConfig(tag, t.config, n, v))
  }

  /** The loops over the attribute array. */
  function SetAll(tag: Tag, t: Target, attrs: seq<Attr>): Target {
    if attrs == [] then t
    else
      var (n, v) := attrs[|attrs| - 1];
      SetOne(tag, SetAll(tag, t, attrs[..|attrs| - 1]), n, v)
  }

  // ---- events ----

  /** cr_elem_start; `memory` is what malloc leaves in the next account before its attributes are set. */
  function OnStart(r: Reader, tag: Tag, attrs: seq<Attr>, memory: nat -> Account): Reader {
    if !Noticed(r.within, tag) then r
    else
      var t := SetAll(tag, Target(r.config, memory(|r.accounts|)), attrs);
      if tag == AccountTag then r.(accounts := r.accounts + [t.account])
      else r.(within := r.within + {tag}, config := t.config)
  }

  /** cr_elem_end */
  function OnEnd(r: Reader, tag: Tag): Reader {
    if tag != AccountTag && Noticed(r.within, tag) then r.(within := r.within - {tag}) else r
  }

  /** An element of any other name is passed over, and so are its attributes. */
  function Handle(r: Reader, e: Event, memory: nat -> Account): Reader {
    match e
    case Start(name, attrs) =>
      var tag := TagOf(name);
      if tag.None? then r else OnStart(r, tag.value, attrs, memory)
    case End(name) =>
      var tag := TagOf(name);
      if tag.None? then r else OnEnd(r, tag.value)
  }

  /** A whole stream. */
  function Read(r: Reader, events: seq<Event>, memory: nat -> Account): Reader {
    if events == [] then r else Handle(Read(r, events[..|events| - 1], memory), events[|events| - 1], memory)
  }

  // ---- names ----

  /** Length, first and last but two character: enough to tell the names apart. */
  function Sign(tag: Tag): (nat, char, char) {
    match tag
    case ConfigTag => (6, 'c', 'f')
    case Accounts => (8, 'a', 'n')
    case Core => (4, 'c', 'o')
    case Remote => (6, 'r', 'o')
    case Sipstack => (8, 's', 'a')
    case Util => (4, 'u', 't')
    case Logging => (7, 'l', 'i')
    case SimpleLogger => (12, 's', 'g')
    case Console => (7, 'c', 'o')
    case File => (4, 'f', 'i')
    case ThreadManagement => (16, 't', 'e')
    case Threads => (7, 't', 'a')
    case Server => (6, 's', 'v')
    case Callback => (8, 'c', 'a')
    case XmlrpcServer => (12, 'x', 'v')
    case XmlrpcClient => (12, 'x', 'e')
    case Events => (6, 'e', 'n')
    case Dispatcher => (10, 'd', 'h')
    case List => (4, 'l', 'i')
    case ExosipAdapter => (13, 'e', 't')
    case AccountManagement => (17, 'a', 'e')
    case SipOutput => (9, 's', 'p')
    case RegistrarManager => (16, 'r', 'g')
    case AccountTag => (7, 'a', 'u')
  }

  lemma SignOfName(tag: Tag)
    ensures |NameOf(tag)| == Sign(tag).0 >= 4
    ensures NameOf(tag)[0] == Sign(tag).1 && NameOf(tag)[|NameOf(tag)| - 3] == Sign(tag).2
  {
  }

  lemma NamesDiffer(s: Tag, t: Tag)
    requires NameOf(s) == NameOf(t)
    ensures s == t
  {
    SignOfName(s);
    SignOfName(t);
  }

  lemma {:induction false} TagInFinds(tags: seq<Tag>, k: nat)
    requires k < |tags|
    ensures TagIn(tags, NameOf(tags[k])) == Some(tags[k])
  {
    if NameOf(tags[0]) == NameOf(tags[k]) { NamesDiffer(tags[0], tags[k]); } else { TagInFinds(tags[1..], k - 1); }
  }

  lemma AllTagsListed(tag: Tag)
    ensures tag in ALL_TAGS
  {
  }

  /** The names of the elements are told apart. */
  lemma TagOfName(tag: Tag)
    ensures TagOf(NameOf(tag)) == Some(tag)
  {
    AllTagsListed(tag);
    var k :| 0 <= k < |ALL_TAGS| && ALL_TAGS[k] == tag;
    TagInFinds(ALL_TAGS, k);
  }
}
