/** What the reader makes of the document the writer leaves. */
module ConfigRoundTrip {
  import opened Options
  import opened AccountSpec
  import opened Decimals
  import opened Configs
  import opened ConfigReading
  import opened ConfigTrees

  /** An integer, a flag and a log level after one save and load. */
  function Int(n: int): int {
    Atoi(IntToStr(n))
  }

  function Flag(b: int): int {
    if b != 0 then 1 else 0
  }

  function Level(level: int): int {
    if 0 <= level <= 5 then level else 5
  }

  function Reloaded(c: Config): Config {
    Config(ConsoleCfg(Flag(c.console.enabled), Level(c.console.logLevel)),
           FileCfg(Flag(c.file.enabled), c.file.fileName, Level(c.file.logLevel), Flag(c.file.withTime),
                   Flag(c.file.verbose), Flag(c.file.threadId)),
           Int(c.maxThreads),
           DispatcherCfg(Int(c.dispatcher.maxCalls), Int(c.dispatcher.maxEvents)),
           RegistrarCfg(Int(c.registrar.expire), Int(c.registrar.preExpireRange), Int(c.registrar.timeout)),
           c.client,
           ServerCfg(Int(c.server.port), c.server.registerPrefix, c.server.logFileName),
           Int(c.sipPort),
           ManagementCfg(Int(c.management.maxAccountIdAmount), Int(c.management.maxValueLength)))
  }

  function ReloadedAccount(a: Account): Account {
    a.(id := Int(a.id), autoregister := Flag(a.autoregister))
  }

  function ReloadedAccounts(accounts: seq<Account>): (r: seq<Account>)
    ensures |r| == |accounts| && forall i :: 0 <= i < |r| ==> r[i] == ReloadedAccount(accounts[i])
  {
    seq(|accounts|, i requires 0 <= i < |accounts| => ReloadedAccount(accounts[i]))
  }

  // ---- one element ----

  lemma SetPrefix(tag: Tag, t: Target, attrs: seq<Attr>, k: nat)
    requires k < |attrs|
    ensures SetAll(tag, t, attrs[..k + 1]) == SetOne(tag, SetAll(tag, t, attrs[..k]), attrs[k].0, attrs[k].1)
  {
    assert attrs[..k + 1][..k] == attrs[..k];
  }

  lemma SetOneIs(tag: Tag, t: Target, attrs: seq<Attr>)
    requires |attrs| == 1
    ensures SetAll(tag, t, attrs) == SetOne(tag, t, attrs[0].0, attrs[0].1)
  {
    assert attrs[..0] == [];
  }

  lemma ConfigStep(tag: Tag, t: Target, attrs: seq<Attr>, k: nat)
    requires k < |attrs| && tag != AccountTag
    ensures SetAll(tag, t, attrs[..k + 1]).config
            == SetConfig(tag, SetAll(tag, t, attrs[..k]).config, attrs[k].0, attrs[k].1)
  {
    SetPrefix(tag, t, attrs, k);
  }

  lemma ManagementSets(c: Config, v: string)
    ensures SetConfig(AccountManagement, c, "maxaccountidamount", v)
            == c.(management := c.management.(maxAccountIdAmount := Atoi(v)))
    ensures SetConfig(AccountManagement, c, "maxvaluelength", v)
            == c.(management := c.management.(maxValueLength := Atoi(v)))
  {
  }

  lemma ManagementRead(t: Target, c: Config)
    ensures SetAll(AccountManagement, t, ManagementAttrs(c.management)).config
            == t.config.(management := Reloaded(c).management)
  {
    var attrs := ManagementAttrs(c.management);
    ConfigStep(AccountManagement, t, attrs, 0);
    ManagementSets(SetAll(AccountManagement, t, attrs[..0]).config, attrs[0].1);
    ConfigStep(AccountManagement, t, attrs, 1);
    ManagementSets(SetAll(AccountManagement, t, attrs[..1]).config, attrs[1].1);
    assert attrs[..0] == [] && attrs[..2] == attrs;
  }

  lemma DispatcherSets(c: Config, v: string)
    ensures SetConfig(Dispatcher, c, "maxcalls", v) == c.(dispatcher := c.dispatcher.(maxCalls := Atoi(v)))
    ensures SetConfig(Dispatcher, c, "maxevents", v) == c.(dispatcher := c.dispatcher.(maxEvents := Atoi(v)))
  {
  }

  lemma DispatcherRead(t: Target, c: Config)
    ensures SetAll(Dispatcher, t, DispatcherAttrs(c.dispatcher)).config
            == t.config.(dispatcher := Reloaded(c).dispatcher)
  {
    var attrs := DispatcherAttrs(c.dispatcher);
    ConfigStep(Dispatcher, t, attrs, 0);
    DispatcherSets(SetAll(Dispatcher, t, attrs[..0]).config, attrs[0].1);
    ConfigStep(Dispatcher, t, attrs, 1);
    DispatcherSets(SetAll(Dispatcher, t, attrs[..1]).config, attrs[1].1);
    assert attrs[..0] == [] && attrs[..2] == attrs;
  }

  lemma RegistrarSets(c: Config, v: string)
    ensures SetConfig(RegistrarManager, c, "expire", v) == c.(registrar := c.registrar.(expire := Atoi(v)))
    ensures SetConfig(RegistrarManager, c, "preexpirerange", v)
            == c.(registrar := c.registrar.(preExpireRange := Atoi(v)))
    ensures SetConfig(RegistrarManager, c, "timeout", v) == c.(registrar := c.registrar.(timeout := Atoi(v)))
  {
  }

  lemma RegistrarRead(t: Target, c: Config)
    ensures SetAll(RegistrarManager, t, RegistrarAttrs(c.registrar)).config
            == t.config.(registrar := Reloaded(c).registrar)
  {
    var attrs := RegistrarAttrs(c.registrar);
    ConfigStep(RegistrarManager, t, attrs, 0);
    RegistrarSets(SetAll(RegistrarManager, t, attrs[..0]).config, attrs[0].1);
    ConfigStep(RegistrarManager, t, attrs, 1);
    RegistrarSets(SetAll(RegistrarManager, t, attrs[..1]).config, attrs[1].1);
    ConfigStep(RegistrarManager, t, attrs, 2);
    RegistrarSets(SetAll(RegistrarManager, t, attrs[..2]).config, attrs[2].1);
    assert attrs[..0] == [] && attrs[..3] == attrs;
  }

  lemma ClientSets(c: Config, v: string)
    ensures SetConfig(XmlrpcClient, c, "name", v) == c.(client := c.client.(name := Some(v)))
    ensures SetConfig(XmlrpcClient, c, "version", v) == c.(client := c.client.(version := Some(v)))
  {
  }

  lemma ClientRead(t: Target, c: Config)
    requires Complete(c)
    ensures SetAll(XmlrpcClient, t, ClientAttrs(c.client)).config == t.config.(client := c.client)
  {
    var attrs := ClientAttrs(c.client);
    ConfigStep(XmlrpcClient, t, attrs, 0);
    ClientSets(SetAll(XmlrpcClient, t, attrs[..0]).config, attrs[0].1);
    ConfigStep(XmlrpcClient, t, attrs, 1);
    ClientSets(SetAll(XmlrpcClient, t, attrs[..1]).config, attrs[1].1);
    assert attrs[..0] == [] && attrs[..2] == attrs;
  }

  lemma ServerSets(c: Config, v: string)
    ensures SetConfig(XmlrpcServer, c, "logfilename", v) == c.(server := c.server.(logFileName := Some(v)))
    ensures SetConfig(XmlrpcServer, c, "port", v) == c.(server := c.server.(port := Atoi(v)))
    ensures SetConfig(XmlrpcServer, c, "registerprefix", v) == c.(server := c.server.(registerPrefix := Some(v)))
  {
  }

  lemma ServerRead(t: Target, c: Config)
    requires Complete(c)
    ensures SetAll(XmlrpcServer, t, ServerAttrs(c.server)).config == t.config.(server := Reloaded(c).server)
  {
    var attrs := ServerAttrs(c.server);
    ConfigStep(XmlrpcServer, t, attrs, 0);
    ServerSets(SetAll(XmlrpcServer, t, attrs[..0]).config, attrs[0].1);
    ConfigStep(XmlrpcServer, t, attrs, 1);
    ServerSets(SetAll(XmlrpcServer, t, attrs[..1]).config, attrs[1].1);
    ConfigStep(XmlrpcServer, t, attrs, 2);
    ServerSets(SetAll(XmlrpcServer, t, attrs[..2]).config, attrs[2].1);
    assert attrs[..0] == [] && attrs[..3] == attrs;
  }

  lemma ConsoleSets(c: Config, v: string)
    ensures SetConfig(Console, c, "enabled", v) == c.(console := c.console.(enabled := ParseBool(v)))
    ensures SetConfig(Console, c, "loglevel", v) == c.(console := c.console.(logLevel := ParseLoglevel(v)))
  {
  }

  lemma ConsoleRead(t: Target, c: Config)
    ensures SetAll(Console, t, ConsoleAttrs(c.console)).config == t.config.(console := Reloaded(c).console)
  {
    var attrs := ConsoleAttrs(c.console);
    ConfigStep(Console, t, attrs, 0);
    ConsoleSets(SetAll(Console, t, attrs[..0]).config, attrs[0].1);
    ConfigStep(Console, t, attrs, 1);
    ConsoleSets(SetAll(Console, t, attrs[..1]).config, attrs[1].1);
    assert attrs[..0] == [] && attrs[..2] == attrs;
    BoolSurvivesIff(c.console.enabled);
    LoglevelSurvivesIff(c.console.logLevel);
  }

  lemma FileSets(f: FileCfg, v: string)
    ensures SetFile(f, "enabled", v) == f.(enabled := ParseBool(v))
    ensures SetFile(f, "loglevel", v) == f.(logLevel := ParseLoglevel(v))
    ensures SetFile(f, "filename", v) == f.(fileName := Some(v))
    ensures SetFile(f, "withtime", v) == f.(withTime := ParseBool(v))
    ensures SetFile(f, "verbose", v) == f.(verbose := ParseBool(v))
    ensures SetFile(f, "threadid", v) == f.(threadId := ParseBool(v))
  {
  }

  lemma FileStep(t: Target, attrs: seq<Attr>, k: nat)
    requires k < |attrs|
    ensures var c := SetAll(File, t, attrs[..k]).config;
            SetAll(File, t, attrs[..k + 1]).config == c.(file := SetFile(c.file, attrs[k].0, attrs[k].1))
  {
    SetPrefix(File, t, attrs, k);
  }

  lemma FileReadHalf(t: Target, c: Config)
    requires Complete(c)
    ensures SetAll(File, t, FileAttrs(c.file)[..3]).config
            == t.config.(file := t.config.file.(enabled := Flag(c.file.enabled), logLevel := Level(c.file.logLevel),
                                                fileName := c.file.fileName))
  {
    var attrs := FileAttrs(c.file);
    var f0 := t.config.file;
    var f1 := f0.(enabled := Flag(c.file.enabled));
    var f2 := f1.(logLevel := Level(c.file.logLevel));
    assert attrs[..0] == [];
    FileStep(t, attrs, 0);
    FileSets(f0, attrs[0].1);
    BoolSurvivesIff(c.file.enabled);
    FileStep(t, attrs, 1);
    FileSets(f1, attrs[1].1);
    LoglevelSurvivesIff(c.file.logLevel);
    FileStep(t, attrs, 2);
    FileSets(f2, attrs[2].1);
  }

  lemma FileRead(t: Target, c: Config)
    requires Complete(c)
    ensures SetAll(File, t, FileAttrs(c.file)).config == t.config.(file := Reloaded(c).file)
  {
    var attrs := FileAttrs(c.file);
    FileReadHalf(t, c);
    var f3 := SetAll(File, t, attrs[..3]).config.file;
    var f4 := f3.(withTime := Flag(c.file.withTime));
    var f5 := f4.(verbose := Flag(c.file.verbose));
    FileStep(t, attrs, 3);
    FileSets(f3, attrs[3].1);
    BoolSurvivesIff(c.file.withTime);
    FileStep(t, attrs, 4);
    FileSets(f4, attrs[4].1);
    BoolSurvivesIff(c.file.verbose);
    FileStep(t, attrs, 5);
    FileSets(f5, attrs[5].1);
    BoolSurvivesIff(c.file.threadId);
    assert attrs[..6] == attrs;
  }

  lemma AccountNames()
    ensures Field("name") == 0 && Field("username") == 1 && Field("domain") == 2 && Field("authusername") == 3
    ensures Field("password") == 4 && Field("displayname") == 5 && Field("outboundproxy") == 6
    ensures Field("registrar") == 7 && Field("autoregister") == 8 && Field("id") == 9
  {
  }

  lemma AccountStep(t: Target, attrs: seq<Attr>, k: nat, f: nat)
    requires k < |attrs| && Field(attrs[k].0) == f
    ensures SetAll(AccountTag, t, attrs[..k + 1]).account
            == SetField(SetAll(AccountTag, t, attrs[..k]).account, f, attrs[k].1)
  {
    SetPrefix(AccountTag, t, attrs, k);
    SetByField(SetAll(AccountTag, t, attrs[..k]).account, attrs[k].0, attrs[k].1);
  }

  lemma FirstHalfRead(t: Target, attrs: seq<Attr>, a: Account)
    requires CompleteAccount(a) && attrs == AccountAttrs(a)
    ensures SetAll(AccountTag, t, attrs[..5]).account
            == t.account.(id := Atoi(attrs[0].1), name := a.name, username := a.username, domain := a.domain,
                          authusername := a.authusername)
  {
    AccountNames();
    assert attrs[..0] == [];
    AccountStep(t, attrs, 0, 9);
    AccountStep(t, attrs, 1, 0);
    AccountStep(t, attrs, 2, 1);
    AccountStep(t, attrs, 3, 2);
    AccountStep(t, attrs, 4, 3);
  }

  lemma SecondHalfRead(t: Target, attrs: seq<Attr>, a: Account)
    requires CompleteAccount(a) && attrs == AccountAttrs(a)
    ensures SetAll(AccountTag, t, attrs[..10]).account
            == SetAll(AccountTag, t, attrs[..5]).account.(
                 password := a.password, displayname := a.displayname, outboundproxy := a.outboundproxy,
                 registrar := a.registrar, autoregister := ParseBool(attrs[9].1))
  {
    AccountNames();
    AccountStep(t, attrs, 5, 4);
    AccountStep(t, attrs, 6, 5);
    AccountStep(t, attrs, 7, 6);
    AccountStep(t, attrs, 8, 7);
    AccountStep(t, attrs, 9, 8);
  }

  /** Every field of an account is written, so nothing of what malloc left is kept. */
  lemma AccountRead(t: Target, a: Account)
    requires CompleteAccount(a)
    ensures SetAll(AccountTag, t, AccountAttrs(a)).account == ReloadedAccount(a)
  {
    var attrs := AccountAttrs(a);
    FirstHalfRead(t, attrs, a);
    SecondHalfRead(t, attrs, a);
    assert attrs[..10] == attrs;
    BoolSurvivesIff(a.autoregister);
  }

  // ---- the tree ----

  /** How deep an element stands below "config". */
  function Depth(tag: Tag): nat {
    match tag
    case ConfigTag => 0
    case Accounts => 1
    case Core => 1
    case Remote => 1
    case Sipstack => 1
    case Util => 1
    case Logging => 2
    case ThreadManagement => 2
    case Callback => 2
    case Server => 2
    case Events => 2
    case SipOutput => 2
    case List => 2
    case AccountManagement => 2
    case ExosipAdapter => 2
    case SimpleLogger => 3
    case Threads => 3
    case XmlrpcClient => 3
    case XmlrpcServer => 3
    case Dispatcher => 3
    case RegistrarManager => 3
    case AccountTag => 3
    case Console => 4
    case File => 4
  }

  lemma ParentIsOneUp(tag: Tag)
    requires tag != ConfigTag
    ensures Depth(tag) == Depth(ParentOf(tag)) + 1
  {
  }

  /** Every element stands directly inside the one that the reader expects it in. */
  predicate Placed(n: Node)
    decreases n, 0
  {
    (n.tag == AccountTag ==> n.children == []) && forall i :: 0 <= i < |n.children| ==> Fits(n.tag, n.children[i])
  }

  predicate Fits(parent: Tag, n: Node)
    decreases n, 1
  {
    n.tag != ConfigTag && ParentOf(n.tag) == parent && Placed(n)
  }

  predicate AllFit(parent: Tag, ns: seq<Node>) {
    forall i :: 0 <= i < |ns| ==> Fits(parent, ns[i])
  }

  /** The configuration and the accounts, without the flags. */
  datatype Data = Data(config: Config, accounts: seq<Account>)

  function Apply(d: Data, tag: Tag, attrs: seq<Attr>, memory: nat -> Account): Data {
    var t := SetAll(tag, Target(d.config, memory(|d.accounts|)), attrs);
    if tag == AccountTag then d.(accounts := d.accounts + [t.account]) else d.(config := t.config)
  }

  /** What an element does to them when every flag test succeeds. */
  function Effect(d: Data, n: Node, memory: nat -> Account): Data
    decreases n, 1
  {
    EffectAll(Apply(d, n.tag, n.attrs, memory), n.children, memory)
  }

  function EffectAll(d: Data, ns: seq<Node>, memory: nat -> Account): Data
    decreases ns, 0
  {
    if ns == [] then d else Effect(EffectAll(d, ns[..|ns| - 1], memory), ns[|ns| - 1], memory)
  }

  predicate Above(within: set<Tag>, depth: int) {
    forall t :: t in within ==> Depth(t) < depth
  }

  /** With every element in its place the flag tests all succeed, and the flags end as they began. */
  lemma {:induction false} PlacedIsRead(r: Reader, n: Node, memory: nat -> Account)
    requires Placed(n) && Noticed(r.within, n.tag) && Above(r.within, Depth(n.tag))
    ensures var d := Effect(Data(r.config, r.accounts), n, memory);
            ReadNode(r, n, memory) == Reader(r.within, d.config, d.accounts)
    decreases n, 1
  {
    var s := OnStart(r, n.tag, n.attrs, memory);
    if n.tag != AccountTag {
      AllPlacedAreRead(s, n.tag, n.children, memory);
      assert r.within + {n.tag} - {n.tag} == r.within;
    }
  }

  lemma {:induction false} AllPlacedAreRead(r: Reader, parent: Tag, ns: seq<Node>, memory: nat -> Account)
    requires AllFit(parent, ns) && parent in r.within && Above(r.within, Depth(parent) + 1)
    ensures var d := EffectAll(Data(r.config, r.accounts), ns, memory);
            ReadNodes(r, ns, memory) == Reader(r.within, d.config, d.accounts)
    decreases ns, 0
  {
    if ns != [] {
      AllPlacedAreRead(r, parent, ns[..|ns| - 1], memory);
      ParentIsOneUp(ns[|ns| - 1].tag);
      PlacedIsRead(ReadNodes(r, ns[..|ns| - 1], memory), ns[|ns| - 1], memory);
    }
  }

  lemma PlacedPair(parent: Tag, m: Node, n: Node)
    requires parent != AccountTag && Fits(parent, m) && Fits(parent, n)
    ensures Placed(Group(parent, [m, n]))
  {
  }

  lemma PlacedOne(parent: Tag, n: Node)
    requires parent != AccountTag && Fits(parent, n)
    ensures Placed(Group(parent, [n]))
  {
  }

  lemma AccountsPlaced(accounts: seq<Account>)
    requires CompleteAccounts(accounts)
    ensures Placed(Group(List, AccountNodes(accounts)))
  {
    forall i | 0 <= i < |accounts| ensures Fits(List, AccountNodes(accounts)[i]) {
      LeafPlaced(AccountTag, AccountAttrs(accounts[i]));
    }
  }

  lemma LeafPlaced(tag: Tag, attrs: seq<Attr>)
    ensures Placed(Leaf(tag, attrs))
  {
  }

  lemma SingleLeafPlaced(tag: Tag, leaf: Tag, attrs: seq<Attr>)
    requires tag != AccountTag && leaf != ConfigTag && ParentOf(leaf) == tag
    ensures Placed(Group(tag, [Leaf(leaf, attrs)]))
  {
    PlacedOne(tag, Leaf(leaf, attrs));
  }

  lemma TwoGroupsPlaced(tag: Tag, g: Tag, leaf: Tag, attrs: seq<Attr>, g': Tag, leaf': Tag, attrs': seq<Attr>)
    requires tag != AccountTag && g != AccountTag && g' != AccountTag
    requires g != ConfigTag && g' != ConfigTag && leaf != ConfigTag && leaf' != ConfigTag
    requires ParentOf(leaf) == g && ParentOf(leaf') == g' && ParentOf(g) == tag == ParentOf(g')
    ensures Placed(TwoGroups(tag, g, leaf, attrs, g', leaf', attrs'))
  {
    SingleLeafPlaced(g, leaf, attrs);
    SingleLeafPlaced(g', leaf', attrs');
    PlacedPair(tag, Group(g, [Leaf(leaf, attrs)]), Group(g', [Leaf(leaf', attrs')]));
  }

  lemma AccountsNodePlaced(c: Config, accounts: seq<Account>)
    requires CompleteAccounts(accounts)
    ensures Placed(AccountsNode(c, accounts))
  {
    AccountsPlaced(accounts);
    PlacedPair(Accounts, Leaf(AccountManagement, ManagementAttrs(c.management)), Group(List, AccountNodes(accounts)));
  }

  lemma CoreNodePlaced(c: Config)
    ensures Placed(CoreNode(c))
  {
    TwoGroupsPlaced(Core, Events, Dispatcher, DispatcherAttrs(c.dispatcher),
                    SipOutput, RegistrarManager, RegistrarAttrs(c.registrar));
  }

  lemma RemoteNodePlaced(c: Config)
    requires Complete(c)
    ensures Placed(RemoteNode(c))
  {
    TwoGroupsPlaced(Remote, Callback, XmlrpcClient, ClientAttrs(c.client), Server, XmlrpcServer, ServerAttrs(c.server));
  }

  lemma SipstackNodePlaced(c: Config)
    ensures Placed(SipstackNode(c))
  {
    PlacedOne(Sipstack, SipstackNode(c).children[0]);
  }

  lemma LoggingPlaced(m: Node, n: Node)
    requires Fits(SimpleLogger, m) && Fits(SimpleLogger, n)
    ensures Placed(Group(Logging, [Group(SimpleLogger, [m, n])]))
  {
    PlacedPair(SimpleLogger, m, n);
    PlacedOne(Logging, Group(SimpleLogger, [m, n]));
  }

  lemma UtilNodePlaced(c: Config)
    requires Complete(c)
    ensures Placed(UtilNode(c))
  {
    LoggingPlaced(Leaf(Console, ConsoleAttrs(c.console)), Leaf(File, FileAttrs(c.file)));
    SingleLeafPlaced(ThreadManagement, Threads, [("maxamount", IntToStr(c.maxThreads))]);
    PlacedPair(Util, LoggingNode(c), ThreadsNode(c));
  }

  /** The writer puts every element where the reader expects it. */
  lemma ConfigNodePlaced(c: Config, accounts: seq<Account>)
    requires Complete(c) && CompleteAccounts(accounts)
    ensures Placed(ConfigNode(c, accounts))
  {
    AccountsNodePlaced(c, accounts);
    CoreNodePlaced(c);
    RemoteNodePlaced(c);
    SipstackNodePlaced(c);
    UtilNodePlaced(c);
    PlacedFive(ConfigTag, AccountsNode(c, accounts), CoreNode(c), RemoteNode(c), SipstackNode(c), UtilNode(c));
  }

  lemma PlacedFive(parent: Tag, n1: Node, n2: Node, n3: Node, n4: Node, n5: Node)
    requires parent != AccountTag && Fits(parent, n1) && Fits(parent, n2) && Fits(parent, n3) && Fits(parent, n4)
    requires Fits(parent, n5)
    ensures Placed(Group(parent, [n1, n2, n3, n4, n5]))
  {
  }

  // ---- its effect ----

  lemma LeafEffect(d: Data, tag: Tag, attrs: seq<Attr>, memory: nat -> Account)
    ensures Effect(d, Leaf(tag, attrs), memory) == Apply(d, tag, attrs, memory)
  {
  }

  lemma NextEffect(d: Data, ns: seq<Node>, k: nat, memory: nat -> Account)
    requires k < |ns|
    ensures EffectAll(d, ns[..k + 1], memory) == Effect(EffectAll(d, ns[..k], memory), ns[k], memory)
  {
    assert ns[..k + 1][..k] == ns[..k];
  }

  lemma AppendEffect(d: Data, ns: seq<Node>, n: Node, memory: nat -> Account)
    ensures EffectAll(d, ns + [n], memory) == Effect(EffectAll(d, ns, memory), n, memory)
  {
    assert (ns + [n])[..|ns|] == ns;
  }

  lemma GroupEffect(d: Data, tag: Tag, ns: seq<Node>, memory: nat -> Account)
    requires tag != AccountTag
    ensures Effect(d, Group(tag, ns), memory) == EffectAll(d, ns, memory)
  {
    SetNothing(tag, Target(d.config, memory(|d.accounts|)));
  }

  lemma SetNothing(tag: Tag, t: Target)
    ensures SetAll(tag, t, []) == t
  {
  }

  lemma PairEffect(d: Data, tag: Tag, m: Node, n: Node, memory: nat -> Account)
    requires tag != AccountTag
    ensures Effect(d, Group(tag, [m, n]), memory) == Effect(Effect(d, m, memory), n, memory)
  {
    var ns := [m, n];
    GroupEffect(d, tag, ns, memory);
    NextEffect(d, ns, 0, memory);
    NextEffect(d, ns, 1, memory);
    assert ns[..0] == [] && ns[..2] == ns;
  }

  lemma SingleEffect(d: Data, tag: Tag, n: Node, memory: nat -> Account)
    requires tag != AccountTag
    ensures Effect(d, Group(tag, [n]), memory) == Effect(d, n, memory)
  {
    var ns := [n];
    GroupEffect(d, tag, ns, memory);
    NextEffect(d, ns, 0, memory);
    assert ns[..0] == [] && ns[..1] == ns;
  }

  /** A group of one leaf has the effect of the leaf. */
  lemma SingleLeafEffect(d: Data, tag: Tag, leaf: Tag, attrs: seq<Attr>, memory: nat -> Account)
    requires tag != AccountTag
    ensures Effect(d, Group(tag, [Leaf(leaf, attrs)]), memory) == Apply(d, leaf, attrs, memory)
  {
    SingleEffect(d, tag, Leaf(leaf, attrs), memory);
    LeafEffect(d, leaf, attrs, memory);
  }

  lemma OneAccountEffect(d: Data, a: Account, memory: nat -> Account)
    requires CompleteAccount(a)
    ensures Effect(d, Leaf(AccountTag, AccountAttrs(a)), memory) == d.(accounts := d.accounts + [ReloadedAccount(a)])
  {
    LeafEffect(d, AccountTag, AccountAttrs(a), memory);
    AccountRead(Target(d.config, memory(|d.accounts|)), a);
  }

  /** Whatever was there before, the element adds this account. */
  ghost predicate Adds(n: Node, a: Account, memory: nat -> Account) {
    forall d {:trigger Effect(d, n, memory)} :: Effect(d, n, memory) == d.(accounts := d.accounts + [a])
  }

  lemma UseAdds(d: Data, n: Node, a: Account, memory: nat -> Account)
    requires Adds(n, a, memory)
    ensures Effect(d, n, memory) == d.(accounts := d.accounts + [a])
  {
  }

  lemma AppendOne(a: seq<Account>, b: seq<Account>, k: nat)
    requires k < |b|
    ensures a + b[..k] + [b[k]] == a + b[..k + 1]
  {
  }

  lemma {:induction false} EachAdds(d: Data, ns: seq<Node>, added: seq<Account>, k: nat, memory: nat -> Account)
    requires k <= |ns| == |added| && forall i :: 0 <= i < |ns| ==> Adds(ns[i], added[i], memory)
    ensures EffectAll(d, ns[..k], memory) == Data(d.config, d.accounts + added[..k])
    decreases k
  {
    if k == 0 {
      assert d.accounts + added[..0] == d.accounts;
    } else {
      EachAdds(d, ns, added, k - 1, memory);
      NextEffect(d, ns, k - 1, memory);
      UseAdds(Data(d.config, d.accounts + added[..k - 1]), ns[k - 1], added[k - 1], memory);
      AppendOne(d.accounts, added, k - 1);
    }
  }

  /** The account list, of any length, is read in its order. */
  lemma AccountsEffect(d: Data, accounts: seq<Account>, memory: nat -> Account)
    requires CompleteAccounts(accounts)
    ensures EffectAll(d, AccountNodes(accounts), memory) == d.(accounts := d.accounts + ReloadedAccounts(accounts))
  {
    forall i | 0 <= i < |accounts| ensures Adds(AccountNodes(accounts)[i], ReloadedAccounts(accounts)[i], memory) {
      AccountAdds(accounts[i], memory);
    }
    EachAdds(d, AccountNodes(accounts), ReloadedAccounts(accounts), |accounts|, memory);
    assert AccountNodes(accounts)[..|accounts|] == AccountNodes(accounts);
    assert ReloadedAccounts(accounts)[..|accounts|] == ReloadedAccounts(accounts);
  }

  lemma AccountAdds(a: Account, memory: nat -> Account)
    requires CompleteAccount(a)
    ensures Adds(Leaf(AccountTag, AccountAttrs(a)), ReloadedAccount(a), memory)
  {
    forall d ensures Effect(d, Leaf(AccountTag, AccountAttrs(a)), memory)
                     == d.(accounts := d.accounts + [ReloadedAccount(a)]) {
      OneAccountEffect(d, a, memory);
    }
  }

  lemma AccountsNodeEffect(d: Data, c: Config, accounts: seq<Account>, memory: nat -> Account)
    requires CompleteAccounts(accounts)
    ensures Effect(d, AccountsNode(c, accounts), memory)
            == Data(d.config.(management := Reloaded(c).management), d.accounts + ReloadedAccounts(accounts))
  {
    var management, list := Leaf(AccountManagement, ManagementAttrs(c.management)), Group(List, AccountNodes(accounts));
    PairEffect(d, Accounts, management, list, memory);
    LeafEffect(d, AccountManagement, ManagementAttrs(c.management), memory);
    ManagementRead(Target(d.config, memory(|d.accounts|)), c);
    AccountsEffect(Data(d.config.(management := Reloaded(c).management), d.accounts), accounts, memory);
  }

  lemma CoreNodeEffect(d: Data, c: Config, memory: nat -> Account)
    ensures Effect(d, CoreNode(c), memory)
            == d.(config := d.config.(dispatcher := Reloaded(c).dispatcher, registrar := Reloaded(c).registrar))
  {
    var e := d.(config := d.config.(dispatcher := Reloaded(c).dispatcher));
    PairEffect(d, Core, CoreNode(c).children[0], CoreNode(c).children[1], memory);
    EventsEffect(d, c, memory);
    SipOutputEffect(e, c, memory);
  }

  lemma EventsEffect(d: Data, c: Config, memory: nat -> Account)
    ensures Effect(d, Group(Events, [Leaf(Dispatcher, DispatcherAttrs(c.dispatcher))]), memory)
            == d.(config := d.config.(dispatcher := Reloaded(c).dispatcher))
  {
    SingleLeafEffect(d, Events, Dispatcher, DispatcherAttrs(c.dispatcher), memory);
    DispatcherRead(Target(d.config, memory(|d.accounts|)), c);
  }

  lemma SipOutputEffect(d: Data, c: Config, memory: nat -> Account)
    ensures Effect(d, Group(SipOutput, [Leaf(RegistrarManager, RegistrarAttrs(c.registrar))]), memory)
            == d.(config := d.config.(registrar := Reloaded(c).registrar))
  {
    SingleLeafEffect(d, SipOutput, RegistrarManager, RegistrarAttrs(c.registrar), memory);
    RegistrarRead(Target(d.config, memory(|d.accounts|)), c);
  }

  lemma RemoteNodeEffect(d: Data, c: Config, memory: nat -> Account)
    requires Complete(c)
    ensures Effect(d, RemoteNode(c), memory)
            == d.(config := d.config.(client := c.client, server := Reloaded(c).server))
  {
    var e := d.(config := d.config.(client := c.client));
    PairEffect(d, Remote, RemoteNode(c).children[0], RemoteNode(c).children[1], memory);
    SingleLeafEffect(d, Callback, XmlrpcClient, ClientAttrs(c.client), memory);
    ClientRead(Target(d.config, memory(|d.accounts|)), c);
    SingleLeafEffect(e, Server, XmlrpcServer, ServerAttrs(c.server), memory);
    ServerRead(Target(e.config, memory(|e.accounts|)), c);
  }

  lemma SipstackNodeEffect(d: Data, c: Config, memory: nat -> Account)
    ensures Effect(d, SipstackNode(c), memory) == d.(config := d.config.(sipPort := Int(c.sipPort)))
  {
    var attrs: seq<Attr> := [("port", IntToStr(c.sipPort))];
    SingleLeafEffect(d, Sipstack, ExosipAdapter, attrs, memory);
    SetOneIs(ExosipAdapter, Target(d.config, memory(|d.accounts|)), attrs);
  }

  lemma LoggingNodeEffect(d: Data, c: Config, memory: nat -> Account)
    requires Complete(c)
    ensures Effect(d, LoggingNode(c), memory)
            == d.(config := d.config.(console := Reloaded(c).console, file := Reloaded(c).file))
  {
    var logger := LoggingNode(c).children[0];
    var e := d.(config := d.config.(console := Reloaded(c).console));
    SingleEffect(d, Logging, logger, memory);
    PairEffect(d, SimpleLogger, logger.children[0], logger.children[1], memory);
    LeafEffect(d, Console, ConsoleAttrs(c.console), memory);
    ConsoleRead(Target(d.config, memory(|d.accounts|)), c);
    LeafEffect(e, File, FileAttrs(c.file), memory);
    FileRead(Target(e.config, memory(|e.accounts|)), c);
  }

  lemma ThreadsNodeEffect(d: Data, c: Config, memory: nat -> Account)
    ensures Effect(d, ThreadsNode(c), memory) == d.(config := d.config.(maxThreads := Int(c.maxThreads)))
  {
    var attrs: seq<Attr> := [("maxamount", IntToStr(c.maxThreads))];
    SingleLeafEffect(d, ThreadManagement, Threads, attrs, memory);
    SetOneIs(Threads, Target(d.config, memory(|d.accounts|)), attrs);
  }

  lemma UtilNodeEffect(d: Data, c: Config, memory: nat -> Account)
    requires Complete(c)
    ensures Effect(d, UtilNode(c), memory)
            == d.(config := d.config.(console := Reloaded(c).console, file := Reloaded(c).file,
                                      maxThreads := Int(c.maxThreads)))
  {
    PairEffect(d, Util, LoggingNode(c), ThreadsNode(c), memory);
    LoggingNodeEffect(d, c, memory);
    ThreadsNodeEffect(d.(config := d.config.(console := Reloaded(c).console, file := Reloaded(c).file)), c, memory);
  }

  /** Five elements in a row, given the effect of each. */
  lemma FiveEffects(d: Data, n1: Node, d1: Data, n2: Node, d2: Data, n3: Node, d3: Data, n4: Node, d4: Data, n5: Node,
                    d5: Data, memory: nat -> Account)
    requires d1 == Effect(d, n1, memory) && d2 == Effect(d1, n2, memory) && d3 == Effect(d2, n3, memory)
    requires d4 == Effect(d3, n4, memory) && d5 == Effect(d4, n5, memory)
    ensures EffectAll(d, [n1, n2, n3, n4, n5], memory) == d5
  {
    AppendEffect(d, [], n1, memory);
    AppendEffect(d, [] + [n1], n2, memory);
    AppendEffect(d, [] + [n1] + [n2], n3, memory);
    AppendEffect(d, [] + [n1] + [n2] + [n3], n4, memory);
    AppendEffect(d, [] + [n1] + [n2] + [n3] + [n4], n5, memory);
    assert [] + [n1] + [n2] + [n3] + [n4] + [n5] == [n1, n2, n3, n4, n5];
  }

  /** The five parts of the document, one after the other. */
  lemma PartEffects(d: Data, c: Config, accounts: seq<Account>, memory: nat -> Account)
    returns (d1: Data, d2: Data, d3: Data, d4: Data)
    requires Complete(c) && CompleteAccounts(accounts) && d.accounts == []
    ensures d1 == Effect(d, AccountsNode(c, accounts), memory) && d2 == Effect(d1, CoreNode(c), memory)
    ensures d3 == Effect(d2, RemoteNode(c), memory) && d4 == Effect(d3, SipstackNode(c), memory)
    ensures Data(Reloaded(c), ReloadedAccounts(accounts)) == Effect(d4, UtilNode(c), memory)
  {
    d1 := Data(d.config.(management := Reloaded(c).management), ReloadedAccounts(accounts));
    d2 := d1.(config := d1.config.(dispatcher := Reloaded(c).dispatcher, registrar := Reloaded(c).registrar));
    d3 := d2.(config := d2.config.(client := c.client, server := Reloaded(c).server));
    d4 := d3.(config := d3.config.(sipPort := Int(c.sipPort)));
    AccountsNodeEffect(d, c, accounts, memory);
    assert [] + ReloadedAccounts(accounts) == ReloadedAccounts(accounts);
    CoreNodeEffect(d1, c, memory);
    RemoteNodeEffect(d2, c, memory);
    SipstackNodeEffect(d3, c, memory);
    UtilNodeEffect(d4, c, memory);
  }

  /** The whole document. */
  lemma ConfigNodeEffect(d: Data, c: Config, accounts: seq<Account>, memory: nat -> Account)
    requires Complete(c) && CompleteAccounts(accounts) && d.accounts == []
    ensures Effect(d, ConfigNode(c, accounts), memory) == Data(Reloaded(c), ReloadedAccounts(accounts))
  {
    GroupEffect(d, ConfigTag, ConfigNode(c, accounts).children, memory);
    var d1, d2, d3, d4 := PartEffects(d, c, accounts, memory);
    FiveEffects(d, AccountsNode(c, accounts), d1, CoreNode(c), d2, RemoteNode(c), d3, SipstackNode(c), d4, UtilNode(c),
                Data(Reloaded(c), ReloadedAccounts(accounts)), memory);
  }

  lemma DocumentRead(r: Reader, c: Config, accounts: seq<Account>, memory: nat -> Account)
    requires Complete(c) && CompleteAccounts(accounts) && r.within <= {ConfigTag} && r.accounts == []
    ensures ReadNode(r, ConfigNode(c, accounts), memory) == Reader({}, Reloaded(c), ReloadedAccounts(accounts))
  {
    var n := ConfigNode(c, accounts);
    var s := OnStart(r, ConfigTag, [], memory);
    assert s == r.(within := {ConfigTag}) by {
      assert r.within + {ConfigTag} == {ConfigTag};
    }
    ConfigNodePlaced(c, accounts);
    AllPlacedAreRead(s, ConfigTag, n.children, memory);
    ConfigNodeEffect(Data(r.config, r.accounts), c, accounts, memory);
    assert {ConfigTag} - {ConfigTag} == {};
  }

  /**
   Reading what was saved, from an empty list and whatever configuration was there before, gives the reloaded
   configuration and account list with every flag back to 0. The flag of "config" may have been left set.
   */
  lemma RoundTrip(r: Reader, c: Config, accounts: seq<Account>, memory: nat -> Account)
    requires Complete(c) && CompleteAccounts(accounts) && r.within <= {ConfigTag} && r.accounts == []
    ensures Read(r, Flatten(Document(c, accounts)), memory) == Reader({}, Reloaded(c), ReloadedAccounts(accounts))
  {
    ReadFlatten(r, Document(c, accounts), memory);
    ReadRender(r, ConfigNode(c, accounts), memory);
    DocumentRead(r, c, accounts, memory);
  }

  /** The same for a document with the attributes of each element in any other order. */
  lemma RoundTripInAnyOrder(r: Reader, c: Config, accounts: seq<Account>, e: Element, memory: nat -> Account)
    requires Complete(c) && CompleteAccounts(accounts) && r.within <= {ConfigTag} && r.accounts == []
    requires Reordered(e, Document(c, accounts))
    ensures Read(r, Flatten(e), memory) == Reader({}, Reloaded(c), ReloadedAccounts(accounts))
  {
    RoundTrip(r, c, accounts, memory);
    ReadFlatten(r, e, memory);
    ReadFlatten(r, Document(c, accounts), memory);
    ReadReordered(r, e, Document(c, accounts), memory);
  }

  // ---- what is kept exactly ----

  predicate Printable(n: int) {
    -99_999_999 <= n <= 999_999_999
  }

  predicate PrintableConfig(c: Config) {
    && Printable(c.maxThreads) && Printable(c.dispatcher.maxCalls) && Printable(c.dispatcher.maxEvents)
    && Printable(c.registrar.expire) && Printable(c.registrar.preExpireRange) && Printable(c.registrar.timeout)
    && Printable(c.server.port) && Printable(c.sipPort)
    && Printable(c.management.maxAccountIdAmount) && Printable(c.management.maxValueLength)
    && c.console.enabled in {0, 1} && 0 <= c.console.logLevel <= 5
    && c.file.enabled in {0, 1} && 0 <= c.file.logLevel <= 5
    && c.file.withTime in {0, 1} && c.file.verbose in {0, 1} && c.file.threadId in {0, 1}
  }

  predicate PrintableAccounts(accounts: seq<Account>) {
    forall i :: 0 <= i < |accounts| ==> Printable(accounts[i].id) && accounts[i].autoregister in {0, 1}
  }

  lemma ReloadedIntsIff(c: Config)
    ensures Printable(c.maxThreads) <==> Int(c.maxThreads) == c.maxThreads
    ensures Printable(c.dispatcher.maxCalls) <==> Int(c.dispatcher.maxCalls) == c.dispatcher.maxCalls
    ensures Printable(c.dispatcher.maxEvents) <==> Int(c.dispatcher.maxEvents) == c.dispatcher.maxEvents
    ensures Printable(c.registrar.expire) <==> Int(c.registrar.expire) == c.registrar.expire
    ensures Printable(c.registrar.preExpireRange) <==> Int(c.registrar.preExpireRange) == c.registrar.preExpireRange
    ensures Printable(c.registrar.timeout) <==> Int(c.registrar.timeout) == c.registrar.timeout
    ensures Printable(c.server.port) <==> Int(c.server.port) == c.server.port
    ensures Printable(c.sipPort) <==> Int(c.sipPort) == c.sipPort
    ensures Printable(c.management.maxAccountIdAmount)
            <==> Int(c.management.maxAccountIdAmount) == c.management.maxAccountIdAmount
    ensures Printable(c.management.maxValueLength) <==> Int(c.management.maxValueLength) == c.management.maxValueLength
  {
    IntSurvivesIff(c.maxThreads);
    IntSurvivesIff(c.dispatcher.maxCalls);
    IntSurvivesIff(c.dispatcher.maxEvents);
    IntSurvivesIff(c.registrar.expire);
    IntSurvivesIff(c.registrar.preExpireRange);
    IntSurvivesIff(c.registrar.timeout);
    IntSurvivesIff(c.server.port);
    IntSurvivesIff(c.sipPort);
    IntSurvivesIff(c.management.maxAccountIdAmount);
    IntSurvivesIff(c.management.maxValueLength);
  }

  lemma ReloadedAccountsIff(accounts: seq<Account>)
    ensures ReloadedAccounts(accounts) == accounts <==> PrintableAccounts(accounts)
  {
    forall i | 0 <= i < |accounts|
      ensures ReloadedAccounts(accounts)[i] == accounts[i]
              <==> Printable(accounts[i].id) && accounts[i].autoregister in {0, 1}
    {
      IntSurvivesIff(accounts[i].id);
    }
    if ReloadedAccounts(accounts) == accounts {
      assert forall i :: 0 <= i < |accounts| ==> ReloadedAccounts(accounts)[i] == accounts[i];
    }
  }

  /** Saving and loading restores configuration and accounts exactly if every number, flag and level is in range. */
  lemma RoundTripIsExactIff(r: Reader, c: Config, accounts: seq<Account>, memory: nat -> Account)
    requires Complete(c) && CompleteAccounts(accounts) && r.within <= {ConfigTag} && r.accounts == []
    ensures Read(r, Flatten(Document(c, accounts)), memory) == Reader({}, c, accounts)
            <==> PrintableConfig(c) && PrintableAccounts(accounts)
  {
    RoundTrip(r, c, accounts, memory);
    ReloadedIntsIff(c);
    ReloadedAccountsIff(accounts);
  }
}
