/**
 The configuration file that comes with the repository, config/xml/core_config.xml, element by element: what the
 reader makes of it, and that the writer would write it so.
 */
module ShippedConfig {
  import opened Options
  import opened AccountSpec
  import opened Decimals
  import opened Configs
  import opened ConfigReading
  import opened ConfigTrees
  import opened ConfigRoundTrip

  // ---- the file ----

  function Entry(id: string, name: string, username: string, domain: string, authusername: string, password: string,
                 displayname: string, outboundproxy: string, registrar: string, autoregister: string): Element {
    Element("account",
            [("id", id), ("name", name), ("username", username), ("domain", domain), ("authusername", authusername),
             ("password", password), ("displayname", displayname), ("outboundproxy", outboundproxy),
             ("registrar", registrar), ("autoregister", autoregister)],
            [])
  }

  function ManagementLeaf(): Element {
    Element("accountmanagement", [("maxaccountidamount", "128"), ("maxvaluelength", "500")], [])
  }

  function Entries(): seq<Element> {
    [Entry("1", "Test", "test", "192.168.2.101", "", "", "", "", "192.168.2.101", "true"),
     Entry("2", "NAMEy #2", "USERNAME #2", "DOMAIN #2", "AUTHUSERNAME #2", "PASSWORD #2", "DISPLAYNAME #2",
           "OUTBOUNDPROXY #2", "PASSWORD #2", "false"),
     Entry("3", "NAME #3", "USERNAME #3", "DOMAIN #3", "AUTHUSERNAME #3", "PASSWORD #3", "DISPLAYNAME #3",
           "OUTBOUNDPROXY #3", "PASSWORD #3", "false"),
     Entry("4", "NAME 4", "USERNAME #4", "DOMAIN #4", "AUTHUSERNAME #4", "PASSWORD #4", "DISPLAYNAME #4",
           "OUTBOUNDPROXY #4", "PASSWORD #4", "false"),
     Entry("5", "NAME 5", "USERNAME #5", "DOMAIN #5", "AUTHUSERNAME #5", "PASSWORD #5", "DISPLAYNAME #5",
           "OUTBOUNDPROXY #5", "PASSWORD #5", "false"),
     Entry("6", "NAMEz 6", "USERNAME #6", "DOMAIN #6", "AUTHUSERNAME #6", "PASSWORD #6", "DISPLAYNAME #6",
           "OUTBOUNDPROXY #6", "PASSWORD #6", "false")]
  }

  function DispatcherLeaf(): Element {
    Element("dispatcher", [("maxcalls", "32"), ("maxevents", "16")], [])
  }

  function RegistrarLeaf(): Element {
    Element("registrarmanager", [("expire", "1800"), ("preexpirerange", "10"), ("timeout", "60")], [])
  }

  function ClientLeaf(): Element {
    Element("xmlrpcclient", [("name", "Core CallbackClient"), ("version", "1.0")], [])
  }

  function ServerLeaf(): Element {
    Element("xmlrpcserver", [("port", "7777"), ("registerprefix", "core"), ("logfilename", "/tmp/xmlrpc_log")], [])
  }

  function AdapterLeaf(): Element {
    Element("exosipadapter", [("port", "5065")], [])
  }

  function ConsoleLeaf(): Element {
    Element("console", [("enabled", "true"), ("loglevel", "LOG_MESSAGE")], [])
  }

  function FileLeaf(): Element {
    Element("file",
            [("enabled", "true"), ("filename", "/tmp/sipoks05core.log"), ("loglevel", "LOG_DEBUG"),
             ("withtime", "true"), ("verbose", "true"), ("threadid", "true")], [])
  }

  function ThreadsLeaf(): Element {
    Element("threads", [("maxamount", "64")], [])
  }

  function AccountsPart(): Element {
    Element("accounts", [], [ManagementLeaf(), Element("list", [], Entries())])
  }

  function CorePart(): Element {
    Element("core", [], [Element("events", [], [DispatcherLeaf()]), Element("sipoutput", [], [RegistrarLeaf()])])
  }

  function RemotePart(): Element {
    Element("remote", [], [Element("callback", [], [ClientLeaf()]), Element("server", [], [ServerLeaf()])])
  }

  function SipstackPart(): Element {
    Element("sipstack", [], [AdapterLeaf()])
  }

  function LoggingPart(): Element {
    Element("logging", [], [Element("simplelogger", [], [ConsoleLeaf(), FileLeaf()])])
  }

  function UtilPart(): Element {
    Element("util", [], [LoggingPart(), Element("threadmanagement", [], [ThreadsLeaf()])])
  }

  function Shipped(): Element {
    Element("config", [], [AccountsPart(), CorePart(), RemotePart(), SipstackPart(), UtilPart()])
  }

  // ---- what it says ----

  /** Log level 2 is LOG_MESSAGE, 0 is LOG_DEBUG. */
  function ShippedSettings(): Config {
    Config(ConsoleCfg(1, 2), FileCfg(1, Some("/tmp/sipoks05core.log"), 0, 1, 1, 1), 64, DispatcherCfg(32, 16),
           RegistrarCfg(1800, 10, 60), ClientCfg(Some("Core CallbackClient"), Some("1.0")),
           ServerCfg(7777, Some("core"), Some("/tmp/xmlrpc_log")), 5065, ManagementCfg(128, 500))
  }

  function Listed1(id: int, autoregister: int, name: string, username: string, domain: string, authusername: string,
                   password: string, displayname: string, outboundproxy: string, registrar: string): Account {
    Account(id, autoregister, Some(name), Some(username), Some(domain), Some(authusername), Some(password),
            Some(displayname), Some(outboundproxy), Some(registrar))
  }

  function ShippedAccounts(): seq<Account> {
    [Listed1(1, 1, "Test", "test", "192.168.2.101", "", "", "", "", "192.168.2.101"),
     Listed1(2, 0, "NAMEy #2", "USERNAME #2", "DOMAIN #2", "AUTHUSERNAME #2", "PASSWORD #2", "DISPLAYNAME #2",
             "OUTBOUNDPROXY #2", "PASSWORD #2"),
     Listed1(3, 0, "NAME #3", "USERNAME #3", "DOMAIN #3", "AUTHUSERNAME #3", "PASSWORD #3", "DISPLAYNAME #3",
             "OUTBOUNDPROXY #3", "PASSWORD #3"),
     Listed1(4, 0, "NAME 4", "USERNAME #4", "DOMAIN #4", "AUTHUSERNAME #4", "PASSWORD #4", "DISPLAYNAME #4",
             "OUTBOUNDPROXY #4", "PASSWORD #4"),
     Listed1(5, 0, "NAME 5", "USERNAME #5", "DOMAIN #5", "AUTHUSERNAME #5", "PASSWORD #5", "DISPLAYNAME #5",
             "OUTBOUNDPROXY #5", "PASSWORD #5"),
     Listed1(6, 0, "NAMEz 6", "USERNAME #6", "DOMAIN #6", "AUTHUSERNAME #6", "PASSWORD #6", "DISPLAYNAME #6",
             "OUTBOUNDPROXY #6", "PASSWORD #6")]
  }

  // ---- element by element ----

  lemma SmallNumbers()
    ensures IntToStr(1) == "1" && IntToStr(2) == "2" && IntToStr(3) == "3" && IntToStr(4) == "4"
    ensures IntToStr(5) == "5" && IntToStr(6) == "6" && IntToStr(10) == "10" && IntToStr(16) == "16"
  {
  }

  lemma MoreNumbers()
    ensures IntToStr(32) == "32" && IntToStr(60) == "60" && IntToStr(64) == "64"
    ensures IntToStr(128) == "128" && IntToStr(500) == "500"
  {
    assert Digits(12) == "12" && Digits(50) == "50";
  }

  lemma LargeNumbers()
    ensures IntToStr(1800) == "1800" && IntToStr(5065) == "5065" && IntToStr(7777) == "7777"
  {
    assert Digits(18) == "18" && Digits(180) == "180";
    assert Digits(50) == "50" && Digits(506) == "506";
    assert Digits(77) == "77" && Digits(777) == "777";
  }

  /** An element without children, with the attributes of a node in any order. */
  lemma {:induction false} LeafReordered(e: Element, n: Node)
    requires e.name == NameOf(n.tag) && e.children == [] && n.children == []
    requires multiset(e.attrs) == multiset(n.attrs) && DistinctNames(e.attrs) && DistinctNames(n.attrs)
    ensures Reordered(e, Render(n))
  {
  }

  lemma {:induction false} OneChild(name: string, tag: Tag, e: Element, n: Node)
    requires name == NameOf(tag) && Reordered(e, Render(n))
    ensures Reordered(Element(name, [], [e]), Render(Group(tag, [n])))
  {
    ChildrenOf([], n);
    NextChild([], [], e, Render(n));
  }

  lemma {:induction false} TwoChildren(name: string, tag: Tag, e: Element, e': Element, n: Node, n': Node)
    requires name == NameOf(tag) && Reordered(e, Render(n)) && Reordered(e', Render(n'))
    ensures Reordered(Element(name, [], [e, e']), Render(Group(tag, [n, n'])))
  {
    ChildrenOf([], n);
    ChildrenOf([n], n');
    NextChild([], [], e, Render(n));
    NextChild([e], [Render(n)], e', Render(n'));
    assert [n] + [n'] == [n, n'] && [e] + [e'] == [e, e'];
  }

  lemma ChildrenOf(ns: seq<Node>, n: Node)
    ensures RenderAll(ns + [n]) == RenderAll(ns) + [Render(n)]
    ensures RenderAll([]) == []
  {
    assert (ns + [n])[..|ns|] == ns;
  }

  lemma {:induction false} NextChild(es: seq<Element>, fs: seq<Element>, e: Element, f: Element)
    requires AllReordered(es, fs) && Reordered(e, f)
    ensures AllReordered(es + [e], fs + [f])
  {
    assert (es + [e])[..|es|] == es && (fs + [f])[..|fs|] == fs;
  }

  /** An element of two groups of one element each. */
  lemma {:induction false} TwoGroupsShipped(name: string, tag: Tag, group: string, g: Tag, e: Element, n: Node,
                                            group': string, g': Tag, e': Element, n': Node)
    requires name == NameOf(tag) && group == NameOf(g) && group' == NameOf(g')
    requires Reordered(e, Render(n)) && Reordered(e', Render(n'))
    ensures Reordered(Element(name, [], [Element(group, [], [e]), Element(group', [], [e'])]),
                      Render(Group(tag, [Group(g, [n]), Group(g', [n'])])))
  {
    OneChild(group, g, e, n);
    OneChild(group', g', e', n');
    TwoChildren(name, tag, Element(group, [], [e]), Element(group', [], [e']), Group(g, [n]), Group(g', [n']));
  }

  /** Names that differ at the same place are distinct. */
  lemma DistinctAt(attrs: seq<Attr>, k: nat)
    requires forall i :: 0 <= i < |attrs| ==> k < |attrs[i].0|
    requires forall i, j :: 0 <= i < j < |attrs| ==> attrs[i].0[k] != attrs[j].0[k]
    ensures DistinctNames(attrs)
  {
  }

  lemma ManagementShipped()
    ensures Reordered(ManagementLeaf(), Render(Leaf(AccountManagement, ManagementAttrs(ManagementCfg(128, 500)))))
  {
    MoreNumbers();
    assert ManagementLeaf().attrs == ManagementAttrs(ManagementCfg(128, 500));
    DistinctAt(ManagementLeaf().attrs, 3);
    LeafReordered(ManagementLeaf(), Leaf(AccountManagement, ManagementLeaf().attrs));
  }

  lemma DispatcherShipped()
    ensures Reordered(DispatcherLeaf(), Render(Leaf(Dispatcher, DispatcherAttrs(DispatcherCfg(32, 16)))))
  {
    SmallNumbers();
    MoreNumbers();
    assert DispatcherLeaf().attrs == DispatcherAttrs(DispatcherCfg(32, 16));
    DistinctAt(DispatcherLeaf().attrs, 3);
    LeafReordered(DispatcherLeaf(), Leaf(Dispatcher, DispatcherLeaf().attrs));
  }

  lemma RegistrarShipped()
    ensures Reordered(RegistrarLeaf(), Render(Leaf(RegistrarManager, RegistrarAttrs(RegistrarCfg(1800, 10, 60)))))
  {
    SmallNumbers();
    MoreNumbers();
    LargeNumbers();
    assert RegistrarLeaf().attrs == RegistrarAttrs(RegistrarCfg(1800, 10, 60));
    DistinctAt(RegistrarLeaf().attrs, 0);
    LeafReordered(RegistrarLeaf(), Leaf(RegistrarManager, RegistrarLeaf().attrs));
  }

  lemma CoreShipped()
    ensures Reordered(CorePart(), Render(CoreNode(ShippedSettings())))
  {
    CoreNames();
    DispatcherShipped();
    RegistrarShipped();
    var c := ShippedSettings();
    var n, n' := Leaf(Dispatcher, DispatcherAttrs(c.dispatcher)), Leaf(RegistrarManager, RegistrarAttrs(c.registrar));
    TwoGroupsShipped("core", Core, "events", Events, DispatcherLeaf(), n, "sipoutput", SipOutput, RegistrarLeaf(), n');
    CoreIs(c, n, n');
  }

  lemma CoreNames()
    ensures NameOf(Core) == "core" && NameOf(Events) == "events" && NameOf(SipOutput) == "sipoutput"
  {
  }

  lemma CoreIs(c: Config, n: Node, n': Node)
    requires n == Leaf(Dispatcher, DispatcherAttrs(c.dispatcher))
    requires n' == Leaf(RegistrarManager, RegistrarAttrs(c.registrar))
    ensures CoreNode(c) == Group(Core, [Group(Events, [n]), Group(SipOutput, [n'])])
  {
  }

  lemma ClientShipped()
    ensures Reordered(ClientLeaf(), Render(Leaf(XmlrpcClient, ClientAttrs(ShippedSettings().client))))
  {
    assert ClientLeaf().attrs == ClientAttrs(ShippedSettings().client);
    DistinctAt(ClientLeaf().attrs, 0);
    LeafReordered(ClientLeaf(), Leaf(XmlrpcClient, ClientLeaf().attrs));
  }

  lemma ServerShipped()
    ensures Reordered(ServerLeaf(), Render(Leaf(XmlrpcServer, ServerAttrs(ShippedSettings().server))))
  {
    LargeNumbers();
    var a, b := ServerLeaf().attrs, ServerAttrs(ShippedSettings().server);
    Rotated(a, b);
    DistinctAt(a, 0);
    DistinctAt(b, 0);
    LeafReordered(ServerLeaf(), Leaf(XmlrpcServer, b));
  }

  lemma Rotated(a: seq<Attr>, b: seq<Attr>)
    requires |a| == 3 && |b| == 3 && a[0] == b[1] && a[1] == b[2] && a[2] == b[0]
    ensures multiset(a) == multiset(b)
  {
    assert a == [a[0]] + [a[1]] + [a[2]] && b == [b[0]] + [b[1]] + [b[2]];
  }

  lemma RemoteShipped()
    ensures Reordered(RemotePart(), Render(RemoteNode(ShippedSettings())))
  {
    ClientShipped();
    ServerShipped();
    var c := ShippedSettings();
    TwoGroupsShipped("remote", Remote, "callback", Callback, ClientLeaf(), Leaf(XmlrpcClient, ClientAttrs(c.client)),
                     "server", Server, ServerLeaf(), Leaf(XmlrpcServer, ServerAttrs(c.server)));
  }

  lemma SipstackShipped()
    ensures Reordered(SipstackPart(), Render(SipstackNode(ShippedSettings())))
  {
    LargeNumbers();
    var n := Leaf(ExosipAdapter, AdapterLeaf().attrs);
    LeafReordered(AdapterLeaf(), n);
    OneChild("sipstack", Sipstack, AdapterLeaf(), n);
    assert SipstackNode(ShippedSettings()) == Group(Sipstack, [n]);
  }

  lemma ConsoleShipped()
    ensures Reordered(ConsoleLeaf(), Render(Leaf(Console, ConsoleAttrs(ShippedSettings().console))))
  {
    assert ConsoleLeaf().attrs == ConsoleAttrs(ShippedSettings().console);
    DistinctAt(ConsoleLeaf().attrs, 0);
    LeafReordered(ConsoleLeaf(), Leaf(Console, ConsoleLeaf().attrs));
  }

  lemma FileShipped()
    ensures Reordered(FileLeaf(), Render(Leaf(File, FileAttrs(ShippedSettings().file))))
  {
    var b := FileAttrs(ShippedSettings().file);
    FileNames(FileLeaf().attrs, b);
    FileOf(FileLeaf(), b);
  }

  lemma {:induction false} FileOf(e: Element, b: seq<Attr>)
    requires e.name == "file" && e.children == [] && DistinctNames(e.attrs) && DistinctNames(b)
    requires var a := e.attrs;
             && |a| == 6 && |b| == 6 && a[0] == b[0] && a[1] == b[2] && a[2] == b[1]
             && a[3] == b[3] && a[4] == b[4] && a[5] == b[5]
    ensures Reordered(e, Render(Leaf(File, b)))
  {
    Swapped(e.attrs, b);
    LeafReordered(e, Leaf(File, b));
  }

  lemma FileNames(a: seq<Attr>, b: seq<Attr>)
    requires a == FileLeaf().attrs && b == FileAttrs(ShippedSettings().file)
    ensures |a| == 6 && |b| == 6 && a[0] == b[0] && a[1] == b[2] && a[2] == b[1]
    ensures a[3] == b[3] && a[4] == b[4] && a[5] == b[5]
    ensures DistinctNames(a) && DistinctNames(b)
  {
    DistinctAt(a, 0);
    DistinctAt(b, 0);
  }

  lemma Swapped(a: seq<Attr>, b: seq<Attr>)
    requires |a| == 6 && |b| == 6 && a[0] == b[0] && a[1] == b[2] && a[2] == b[1]
    requires a[3] == b[3] && a[4] == b[4] && a[5] == b[5]
    ensures multiset(a) == multiset(b)
  {
    assert a[..3] == [a[0]] + [a[1]] + [a[2]] && b[..3] == [b[0]] + [b[1]] + [b[2]];
    assert a == a[..3] + a[3..] && b == b[..3] + b[3..] && a[3..] == b[3..];
  }

  lemma ThreadsShipped()
    ensures Reordered(Element("threadmanagement", [], [ThreadsLeaf()]), Render(ThreadsNode(ShippedSettings())))
  {
    MoreNumbers();
    var n := Leaf(Threads, ThreadsLeaf().attrs);
    LeafReordered(ThreadsLeaf(), n);
    OneChild("threadmanagement", ThreadManagement, ThreadsLeaf(), n);
    assert ThreadsNode(ShippedSettings()) == Group(ThreadManagement, [n]);
  }

  lemma LoggingShipped()
    ensures Reordered(LoggingPart(), Render(LoggingNode(ShippedSettings())))
  {
    ConsoleShipped();
    FileShipped();
    var c := ShippedSettings();
    LoggerShipped(ConsoleLeaf(), FileLeaf(), Leaf(Console, ConsoleAttrs(c.console)), Leaf(File, FileAttrs(c.file)));
  }

  lemma {:induction false} LoggerShipped(e: Element, e': Element, n: Node, n': Node)
    requires Reordered(e, Render(n)) && Reordered(e', Render(n'))
    ensures Reordered(Element("logging", [], [Element("simplelogger", [], [e, e'])]),
                      Render(Group(Logging, [Group(SimpleLogger, [n, n'])])))
  {
    TwoChildren("simplelogger", SimpleLogger, e, e', n, n');
    OneChild("logging", Logging, Element("simplelogger", [], [e, e']), Group(SimpleLogger, [n, n']));
  }

  lemma UtilShipped()
    ensures Reordered(UtilPart(), Render(UtilNode(ShippedSettings())))
  {
    LoggingShipped();
    ThreadsShipped();
    UtilOf(LoggingPart(), Element("threadmanagement", [], [ThreadsLeaf()]), ShippedSettings());
  }

  lemma {:induction false} UtilOf(e: Element, e': Element, c: Config)
    requires Reordered(e, Render(LoggingNode(c))) && Reordered(e', Render(ThreadsNode(c)))
    ensures Reordered(Element("util", [], [e, e']), Render(UtilNode(c)))
  {
    TwoChildren("util", Util, e, e', LoggingNode(c), ThreadsNode(c));
  }

  // ---- the accounts ----

  /** The names of the attributes of an account are those of ten different fields. */
  lemma AccountNamesDistinct(attrs: seq<Attr>)
    requires |attrs| == 10
    requires forall i :: 0 <= i < 10 ==> Field(attrs[i].0) == if i == 0 then 9 else i - 1
    ensures DistinctNames(attrs)
  {
  }

  lemma {:induction false} EntryShipped(e: Element, a: Account)
    requires e.name == "account" && e.children == [] && e.attrs == AccountAttrs(a)
    ensures Reordered(e, Render(Leaf(AccountTag, AccountAttrs(a))))
  {
    AccountNames();
    AccountNamesDistinct(AccountAttrs(a));
    LeafReordered(e, Leaf(AccountTag, AccountAttrs(a)));
  }

  /** An entry of the file and the account it stands for. */
  lemma SameEntry(id: int, name: string, username: string, domain: string, authusername: string, password: string,
                  displayname: string, outboundproxy: string, registrar: string, autoregister: int)
    ensures Entry(IntToStr(id), name, username, domain, authusername, password, displayname, outboundproxy, registrar,
                  if autoregister != 0 then "true" else "false").attrs
            == AccountAttrs(Listed1(id, autoregister, name, username, domain, authusername, password, displayname,
                                    outboundproxy, registrar))
  {
  }

  lemma EntriesShipped(k: nat)
    requires k < 6
    ensures Entries()[k].name == "account" && Entries()[k].children == []
    ensures Entries()[k].attrs == AccountAttrs(ShippedAccounts()[k])
  {
    SmallNumbers();
    var a := ShippedAccounts()[k];
    SameEntry(a.id, a.name.value, a.username.value, a.domain.value, a.authusername.value, a.password.value,
              a.displayname.value, a.outboundproxy.value, a.registrar.value, a.autoregister);
  }

  lemma {:induction false} ListShipped(es: seq<Element>, accounts: seq<Account>)
    requires |es| == |accounts|
    requires forall k :: 0 <= k < |es| ==>
               es[k].name == "account" && es[k].children == [] && es[k].attrs == AccountAttrs(accounts[k])
    ensures Reordered(Element("list", [], es), Render(Group(List, AccountNodes(accounts))))
  {
    var ns := AccountNodes(accounts);
    forall k | 0 <= k < |es| ensures Reordered(es[k], Render(ns[k])) {
      EntryShipped(es[k], accounts[k]);
    }
    ListOf(es, ns);
  }

  lemma {:induction false} ListOf(es: seq<Element>, ns: seq<Node>)
    requires |es| == |ns| && forall k :: 0 <= k < |es| ==> Reordered(es[k], Render(ns[k]))
    ensures Reordered(Element("list", [], es), Render(Group(List, ns)))
  {
    FirstChildren(es, ns, |es|);
    assert es[..|es|] == es && ns[..|es|] == ns;
  }

  lemma {:induction false} AccountsShipped()
    ensures Reordered(AccountsPart(), Render(AccountsNode(ShippedSettings(), ShippedAccounts())))
  {
    forall k: nat | k < 6
      ensures Entries()[k].name == "account" && Entries()[k].children == []
      ensures Entries()[k].attrs == AccountAttrs(ShippedAccounts()[k])
    {
      EntriesShipped(k);
    }
    ListShipped(Entries(), ShippedAccounts());
    ManagementShipped();
    AccountsOf(ManagementLeaf(), Element("list", [], Entries()), ShippedSettings(), ShippedAccounts());
  }

  lemma {:induction false} AccountsOf(e: Element, e': Element, c: Config, accounts: seq<Account>)
    requires Reordered(e, Render(Leaf(AccountManagement, ManagementAttrs(c.management))))
    requires Reordered(e', Render(Group(List, AccountNodes(accounts))))
    ensures Reordered(Element("accounts", [], [e, e']), Render(AccountsNode(c, accounts)))
  {
    var n, n' := Leaf(AccountManagement, ManagementAttrs(c.management)), Group(List, AccountNodes(accounts));
    assert AccountsNode(c, accounts) == Group(Accounts, [n, n']);
    TwoChildren("accounts", Accounts, e, e', n, n');
  }

  // ---- the whole file ----

  lemma {:induction false} FiveChildren(e1: Element, e2: Element, e3: Element, e4: Element, e5: Element, n1: Node,
                                        n2: Node, n3: Node, n4: Node, n5: Node)
    requires Reordered(e1, Render(n1)) && Reordered(e2, Render(n2)) && Reordered(e3, Render(n3))
    requires Reordered(e4, Render(n4)) && Reordered(e5, Render(n5))
    ensures Reordered(Element("config", [], [e1, e2, e3, e4, e5]), Render(Group(ConfigTag, [n1, n2, n3, n4, n5])))
  {
    var es, ns := [e1, e2, e3, e4, e5], [n1, n2, n3, n4, n5];
    FirstChildren(es, ns, 5);
    assert es[..5] == es && ns[..5] == ns;
  }

  lemma {:induction false} FirstChildren(es: seq<Element>, ns: seq<Node>, k: nat)
    requires |es| == |ns| && k <= |es| && forall i :: 0 <= i < |es| ==> Reordered(es[i], Render(ns[i]))
    ensures AllReordered(es[..k], RenderAll(ns[..k]))
    decreases k
  {
    if k > 0 {
      FirstChildren(es, ns, k - 1);
      assert es[..k] == es[..k - 1] + [es[k - 1]] && ns[..k] == ns[..k - 1] + [ns[k - 1]];
      OneChildMore(es[..k - 1], ns[..k - 1], es[k - 1], ns[k - 1]);
    }
  }

  lemma {:induction false} OneChildMore(es: seq<Element>, ns: seq<Node>, e: Element, n: Node)
    requires AllReordered(es, RenderAll(ns)) && Reordered(e, Render(n))
    ensures AllReordered(es + [e], RenderAll(ns + [n]))
  {
    ChildrenOf(ns, n);
    NextChild(es, RenderAll(ns), e, Render(n));
  }

  /** Saving these settings and accounts writes the file that comes with the repository, but for attribute order. */
  lemma {:induction false} ShippedFileIsWritten()
    ensures Reordered(Shipped(), Document(ShippedSettings(), ShippedAccounts()))
  {
    AccountsShipped();
    CoreShipped();
    RemoteShipped();
    SipstackShipped();
    UtilShipped();
    var c, accounts := ShippedSettings(), ShippedAccounts();
    FiveChildren(AccountsPart(), CorePart(), RemotePart(), SipstackPart(), UtilPart(), AccountsNode(c, accounts),
                 CoreNode(c), RemoteNode(c), SipstackNode(c), UtilNode(c));
  }

  /** And reading it gives exactly these settings and accounts, whatever was configured before. */
  lemma {:induction false} ShippedFileIsRead(r: Reader, memory: nat -> Account)
    requires r.within <= {ConfigTag} && r.accounts == []
    ensures Read(r, Flatten(Shipped()), memory) == Reader({}, ShippedSettings(), ShippedAccounts())
  {
    ShippedFileIsWritten();
    ShippedIsPrintable();
    ReadBack(r, ShippedSettings(), ShippedAccounts(), Shipped(), memory);
  }

  lemma ShippedIsPrintable()
    ensures Complete(ShippedSettings()) && CompleteAccounts(ShippedAccounts())
    ensures PrintableConfig(ShippedSettings()) && PrintableAccounts(ShippedAccounts())
  {
  }

  lemma {:induction false} ReadBack(r: Reader, c: Config, accounts: seq<Account>, e: Element, memory: nat -> Account)
    requires r.within <= {ConfigTag} && r.accounts == [] && Complete(c) && CompleteAccounts(accounts)
    requires PrintableConfig(c) && PrintableAccounts(accounts) && Reordered(e, Document(c, accounts))
    ensures Read(r, Flatten(e), memory) == Reader({}, c, accounts)
  {
    RoundTripInAnyOrder(r, c, accounts, e, memory);
    RoundTrip(r, c, accounts, memory);
    RoundTripIsExactIff(r, c, accounts, memory);
  }

  // ---- what is not in the file ----

  /** Each element is only noticed inside its own parent. */
  lemma Parents()
    ensures forall tag :: tag in {Accounts, Core, Remote, Sipstack, Util} ==> ParentOf(tag) == ConfigTag
    ensures ParentOf(AccountManagement) == ParentOf(List) == Accounts && ParentOf(AccountTag) == List
    ensures ParentOf(Events) == ParentOf(SipOutput) == Core
    ensures ParentOf(Dispatcher) == Events && ParentOf(RegistrarManager) == SipOutput
    ensures ParentOf(Callback) == ParentOf(Server) == Remote
    ensures ParentOf(XmlrpcClient) == Callback && ParentOf(XmlrpcServer) == Server
    ensures ParentOf(ExosipAdapter) == Sipstack && ParentOf(Logging) == ParentOf(ThreadManagement) == Util
    ensures ParentOf(SimpleLogger) == Logging && ParentOf(Console) == ParentOf(File) == SimpleLogger
    ensures ParentOf(Threads) == ThreadManagement
  {
  }

  /** An element outside its parent leaves no trace, whatever its attributes. */
  lemma MisplacedIsIgnored(r: Reader, tag: Tag, attrs: seq<Attr>, memory: nat -> Account)
    requires tag != ConfigTag && ParentOf(tag) !in r.within
    ensures OnStart(r, tag, attrs, memory) == r && OnEnd(r, tag) == r
  {
  }

  /** Attributes of other names are passed over. */
  lemma UnknownAttributesIgnored(c: Config, n: string, v: string)
    ensures n != "enabled" && n != "loglevel" ==> SetConfig(Console, c, n, v) == c
    ensures n != "enabled" && n != "filename" && n != "loglevel" && n != "withtime" && n != "verbose" && n != "threadid"
            ==> SetConfig(File, c, n, v) == c
    ensures n != "maxamount" ==> SetConfig(Threads, c, n, v) == c
  {
  }

  lemma UnknownCoreAttributesIgnored(c: Config, n: string, v: string)
    ensures n != "maxcalls" && n != "maxevents" ==> SetConfig(Dispatcher, c, n, v) == c
    ensures n != "expire" && n != "preexpirerange" && n != "timeout" ==> SetConfig(RegistrarManager, c, n, v) == c
    ensures n != "port" ==> SetConfig(ExosipAdapter, c, n, v) == c
  {
  }

  lemma UnknownRemoteAttributesIgnored(c: Config, n: string, v: string)
    ensures n != "name" && n != "version" ==> SetConfig(XmlrpcClient, c, n, v) == c
    ensures n != "port" && n != "registerprefix" && n != "logfilename" ==> SetConfig(XmlrpcServer, c, n, v) == c
    ensures n != "maxaccountidamount" && n != "maxvaluelength" ==> SetConfig(AccountManagement, c, n, v) == c
  {
  }
}
