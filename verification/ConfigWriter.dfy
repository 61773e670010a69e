/** util/config/xml/config_writer.c over a writer of XML elements such as genx gives. */
module ConfigWriters {
  import opened Options
  import opened AccountSpec
  import opened AccountLists
  import opened Decimals
  import opened Configs

  /** A start tag is kept back until its attributes are known to be complete. */
  class ElementWriter {
    var done: seq<Event>
    var pending: Option<(string, seq<Attr>)>
    var open: seq<string>
    var givenNull: bool     // as the value of an attribute

    /** All that was asked for so far. */
    ghost function Emitted(): seq<Event>
      reads this
    {
      if pending.Some? then done + [Start(pending.value.0, pending.value.1)] else done
    }

    constructor ()
      ensures Emitted() == [] && open == [] && pending.None? && !givenNull
    {
      done, pending, open, givenNull := [], None, [], false;
    }

    method Flush()
      modifies this
      ensures done == Emitted() == old(Emitted()) && pending.None? && open == old(open) && givenNull == old(givenNull)
    {
      if pending.Some? { done := done + [Start(pending.value.0, pending.value.1)]; }
      pending := None;
    }

    method StartElement(name: string)
      modifies this
      ensures done == old(Emitted()) && pending == Some((name, [])) && open == old(open) + [name]
      ensures Emitted() == old(Emitted()) + [Start(name, [])] && givenNull == old(givenNull)
    {
      Flush();
      pending, open := Some((name, [])), open + [name];
    }

    method AddAttribute(name: string, value: Option<string>)
      requires pending.Some?
      modifies this`pending, this`givenNull
      ensures pending == Some((old(pending).value.0, old(pending).value.1 + [(name, Text(value))]))
      ensures givenNull == (old(givenNull) || value.None?)
    {
      pending := Some((pending.value.0, pending.value.1 + [(name, Text(value))]));
      givenNull := givenNull || value.None?;
    }

    method EndElement()
      requires open != []
      modifies this
      ensures Emitted() == old(Emitted()) + [End(old(open)[|old(open)| - 1])]
      ensures open == old(open)[..|old(open)| - 1] && pending.None? && givenNull == old(givenNull)
    {
      Flush();
      done, open := done + [End(open[|open| - 1])], open[..|open| - 1];
    }
  }

  /** The events of an element of the document. */
  function Stream(n: Node): seq<Event>
    decreases n, 1
  {
    [Start(NameOf(n.tag), n.attrs)] + StreamAll(n.children) + [End(NameOf(n.tag))]
  }

  function StreamAll(ns: seq<Node>): seq<Event>
    decreases ns, 0
  {
    if ns == [] then [] else StreamAll(ns[..|ns| - 1]) + Stream(ns[|ns| - 1])
  }

  lemma {:induction false} StreamIs(n: Node)
    ensures Stream(n) == Flatten(Render(n))
    decreases n, 1
  {
    StreamAllIs(n.children);
  }

  lemma {:induction false} StreamAllIs(ns: seq<Node>)
    ensures StreamAll(ns) == FlattenAll(RenderAll(ns))
    decreases ns, 0
  {
    if ns != [] {
      var es := RenderAll(ns);
      assert es[..|es| - 1] == RenderAll(ns[..|ns| - 1]);
      StreamAllIs(ns[..|ns| - 1]);
      StreamIs(ns[|ns| - 1]);
    }
  }

  lemma StreamLeaf(before: seq<Event>, tag: Tag, attrs: seq<Attr>)
    ensures before + [Start(NameOf(tag), attrs)] + [End(NameOf(tag))] == before + Stream(Leaf(tag, attrs))
  {
    assert StreamAll([]) == [];
  }

  /** The events before, and those of a row of elements, one more of them at a time. */
  lemma StreamNext(before: seq<Event>, ns: seq<Node>, n: Node)
    ensures before + StreamAll(ns + [n]) == before + StreamAll(ns) + Stream(n)
  {
    assert (ns + [n])[..|ns|] == ns;
  }

  lemma StreamFirst(before: seq<Event>, n: Node)
    ensures before + StreamAll([n]) == before + Stream(n)
  {
    assert [n][..0] == [];
  }

  lemma StreamGroup(before: seq<Event>, tag: Tag, ns: seq<Node>)
    ensures before + [Start(NameOf(tag), [])] + StreamAll(ns) + [End(NameOf(tag))] == before + Stream(Group(tag, ns))
  {
  }

  /** A group of one or two elements, written after what was there before. */
  lemma StreamSingle(before: seq<Event>, tag: Tag, n: Node)
    ensures before + [Start(NameOf(tag), [])] + Stream(n) + [End(NameOf(tag))] == before + Stream(Group(tag, [n]))
  {
    StreamFirst(before + [Start(NameOf(tag), [])], n);
    StreamGroup(before, tag, [n]);
  }

  lemma StreamPair(before: seq<Event>, tag: Tag, m: Node, n: Node)
    ensures before + [Start(NameOf(tag), [])] + Stream(m) + Stream(n) + [End(NameOf(tag))]
            == before + Stream(Group(tag, [m, n]))
  {
    var start := before + [Start(NameOf(tag), [])];
    StreamFirst(start, m);
    StreamNext(start, [m], n);
    assert [m] + [n] == [m, n];
    StreamGroup(before, tag, [m, n]);
  }

  /** One element has been written between two states of the writer, with or without NULL among its strings. */
  twostate predicate Wrote(w: ElementWriter, n: Node, complete: bool)
    reads w
  {
    && w.Emitted() == old(w.Emitted()) + Stream(n) && w.open == old(w.open) && w.pending.None?
    && w.givenNull == (old(w.givenNull) || !complete)
  }

  /** The end tag of an element without children. */
  method EndLeaf(w: ElementWriter, ghost before: seq<Event>, ghost tag: Tag, ghost attrs: seq<Attr>)
    requires w.open != [] && w.open[|w.open| - 1] == NameOf(tag)
    requires w.pending == Some((NameOf(tag), attrs)) && w.done == before
    modifies w
    ensures w.Emitted() == before + Stream(Leaf(tag, attrs)) && w.open == old(w.open)[..|old(w.open)| - 1]
    ensures w.pending.None? && w.givenNull == old(w.givenNull)
  {
    w.EndElement();
    StreamLeaf(before, tag, attrs);
  }

  /** The end tag of a group whose children have been written. */
  method EndGroup(w: ElementWriter, ghost before: seq<Event>, ghost tag: Tag, ghost ns: seq<Node>)
    requires w.open != [] && w.open[|w.open| - 1] == NameOf(tag)
    requires w.Emitted() == before + [Start(NameOf(tag), [])] + StreamAll(ns)
    modifies w
    ensures w.Emitted() == before + Stream(Group(tag, ns)) && w.open == old(w.open)[..|old(w.open)| - 1]
    ensures w.pending.None? && w.givenNull == old(w.givenNull)
  {
    w.EndElement();
    StreamGroup(before, tag, ns);
  }

  /** A group of one or of two elements. */
  method EndSingle(w: ElementWriter, ghost before: seq<Event>, ghost tag: Tag, ghost n: Node)
    requires w.open != [] && w.open[|w.open| - 1] == NameOf(tag)
    requires w.Emitted() == before + [Start(NameOf(tag), [])] + Stream(n)
    modifies w
    ensures w.Emitted() == before + Stream(Group(tag, [n])) && w.open == old(w.open)[..|old(w.open)| - 1]
    ensures w.pending.None? && w.givenNull == old(w.givenNull)
  {
    w.EndElement();
    StreamSingle(before, tag, n);
  }

  method EndPair(w: ElementWriter, ghost before: seq<Event>, ghost tag: Tag, ghost m: Node, ghost n: Node)
    requires w.open != [] && w.open[|w.open| - 1] == NameOf(tag)
    requires w.Emitted() == before + [Start(NameOf(tag), [])] + Stream(m) + Stream(n)
    modifies w
    ensures w.Emitted() == before + Stream(Group(tag, [m, n])) && w.open == old(w.open)[..|old(w.open)| - 1]
    ensures w.pending.None? && w.givenNull == old(w.givenNull)
  {
    w.EndElement();
    StreamPair(before, tag, m, n);
  }

  method WriteAccount(w: ElementWriter, a: Account)
    modifies w
    ensures Wrote(w, Leaf(AccountTag, AccountAttrs(a)), CompleteAccount(a))
  {
    ghost var before := w.Emitted();
    w.StartElement("account");
    AddIdentity(w, a);
    AddSettings(w, a);
    assert w.pending.value.1 == AccountAttrs(a);
    EndLeaf(w, before, AccountTag, AccountAttrs(a));
  }

  method AddIdentity(w: ElementWriter, a: Account)
    requires w.pending == Some(("account", []))
    modifies w`pending, w`givenNull
    ensures w.pending == Some(("account", AccountAttrs(a)[..5]))
    ensures w.givenNull == (old(w.givenNull) || !(a.name.Some? && a.username.Some? && a.domain.Some?
                                                  && a.authusername.Some?))
  {
    w.AddAttribute("id", Some(IntToStr(a.id)));
    w.AddAttribute("name", a.name);
    w.AddAttribute("username", a.username);
    w.AddAttribute("domain", a.domain);
    w.AddAttribute("authusername", a.authusername);
    assert w.pending.value.1 == AccountAttrs(a)[..5];
  }

  method AddSettings(w: ElementWriter, a: Account)
    requires w.pending.Some?
    modifies w`pending, w`givenNull
    ensures w.pending == Some((old(w.pending).value.0, old(w.pending).value.1 + AccountAttrs(a)[5..]))
    ensures w.givenNull == (old(w.givenNull) || !(a.password.Some? && a.displayname.Some? && a.outboundproxy.Some?
                                                  && a.registrar.Some?))
  {
    ghost var before := w.pending.value.1;
    w.AddAttribute("password", a.password);
    w.AddAttribute("displayname", a.displayname);
    w.AddAttribute("outboundproxy", a.outboundproxy);
    w.AddAttribute("registrar", a.registrar);
    w.AddAttribute("autoregister", Some(BoolToStr(a.autoregister)));
    assert w.pending.value.1 == before + AccountAttrs(a)[5..];
  }

  method WriteManagement(w: ElementWriter, m: ManagementCfg)
    modifies w
    ensures Wrote(w, Leaf(AccountManagement, ManagementAttrs(m)), true)
  {
    ghost var before := w.Emitted();
    w.StartElement("accountmanagement");
    w.AddAttribute("maxaccountidamount", Some(IntToStr(m.maxAccountIdAmount)));
    w.AddAttribute("maxvaluelength", Some(IntToStr(m.maxValueLength)));
    assert w.pending.value.1 == ManagementAttrs(m);
    EndLeaf(w, before, AccountManagement, ManagementAttrs(m));
  }

  /** The events so far when this many accounts have been written. */
  function WithAccounts(begun: seq<Event>, accounts: seq<Account>, k: nat): seq<Event>
    requires k <= |accounts|
  {
    begun + StreamAll(AccountNodes(accounts)[..k])
  }

  lemma NoAccounts(begun: seq<Event>, accounts: seq<Account>)
    ensures WithAccounts(begun, accounts, 0) == begun
  {
  }

  lemma NextAccount(begun: seq<Event>, accounts: seq<Account>, k: nat)
    requires k < |accounts|
    ensures WithAccounts(begun, accounts, k + 1)
            == WithAccounts(begun, accounts, k) + Stream(Leaf(AccountTag, AccountAttrs(accounts[k])))
  {
    StreamUpTo(begun, AccountNodes(accounts), k);
  }

  lemma StreamUpTo(begun: seq<Event>, ns: seq<Node>, k: nat)
    requires k < |ns|
    ensures begun + StreamAll(ns[..k + 1]) == begun + StreamAll(ns[..k]) + Stream(ns[k])
  {
    StreamNext(begun, ns[..k], ns[k]);
    assert ns[..k] + [ns[k]] == ns[..k + 1];
  }

  lemma AllAccounts(begun: seq<Event>, accounts: seq<Account>)
    ensures WithAccounts(begun, accounts, |accounts|) == begun + StreamAll(AccountNodes(accounts))
    ensures accounts[..|accounts|] == accounts
  {
    assert AccountNodes(accounts)[..|accounts|] == AccountNodes(accounts);
  }

  /** `given` tells whether NULL had been given before the first account. */
  ghost predicate WrittenUpTo(w: ElementWriter, begun: seq<Event>, given: bool, accounts: seq<Account>, k: nat)
    reads w
  {
    && k <= |accounts| && w.Emitted() == WithAccounts(begun, accounts, k)
    && w.givenNull == (given || !CompleteAccounts(accounts[..k]))
  }

  lemma CompleteNext(accounts: seq<Account>, k: nat)
    requires k < |accounts|
    ensures CompleteAccounts(accounts[..k + 1]) <==> CompleteAccounts(accounts[..k]) && CompleteAccount(accounts[k])
  {
    assert forall i :: 0 <= i < k ==> accounts[..k + 1][i] == accounts[..k][i];
    assert accounts[..k + 1][k] == accounts[k];
  }

  method WriteNext(w: ElementWriter, list: AccountList, n: ListNode, ghost begun: seq<Event>, ghost given: bool,
                   ghost k: nat)
    returns (next: ListNode?)
    requires list.Valid() && n == list.At(k) && WrittenUpTo(w, begun, given, list.contents, k)
    modifies w
    ensures k < |list.contents| && next == list.At(k + 1)
    ensures WrittenUpTo(w, begun, given, list.contents, k + 1) && w.open == old(w.open)
  {
    list.AtIs(k);
    WriteAccount(w, n.acc);
    NextAccount(begun, list.contents, k);
    CompleteNext(list.contents, k);
    next := n.next;
  }

  /** The walk over the list. */
  method WriteNodes(w: ElementWriter, list: AccountList, ghost begun: seq<Event>, ghost given: bool)
    requires list.Valid() && WrittenUpTo(w, begun, given, list.contents, 0)
    modifies w
    ensures WrittenUpTo(w, begun, given, list.contents, |list.contents|) && w.open == old(w.open)
  {
    var n := list.head;
    ghost var k := 0;
    while n != null
      invariant n == list.At(k) && w.open == old(w.open)
      invariant WrittenUpTo(w, begun, given, list.contents, k)
      decreases |list.contents| - k
    {
      n := WriteNext(w, list, n, begun, given, k);
      k := k + 1;
    }
    assert k == |list.contents|;
  }

  method WriteList(w: ElementWriter, list: AccountList)
    requires list.Valid()
    modifies w
    ensures Wrote(w, Group(List, AccountNodes(list.contents)), CompleteAccounts(list.contents))
  {
    ghost var before := w.Emitted();
    w.StartElement("list");
    WriteContents(w, list);
    EndGroup(w, before, List, AccountNodes(list.contents));
  }

  method WriteContents(w: ElementWriter, list: AccountList)
    requires list.Valid()
    modifies w
    ensures w.Emitted() == old(w.Emitted()) + StreamAll(AccountNodes(list.contents)) && w.open == old(w.open)
    ensures w.givenNull == (old(w.givenNull) || !CompleteAccounts(list.contents))
  {
    ghost var begun := w.Emitted();
    NoAccounts(begun, list.contents);
    WriteNodes(w, list, begun, w.givenNull);
    AllAccounts(begun, list.contents);
  }

  method WriteAccounts(w: ElementWriter, config: Config, list: AccountList)
    requires list.Valid()
    modifies w
    ensures Wrote(w, AccountsNode(config, list.contents), CompleteAccounts(list.contents))
  {
    ghost var before := w.Emitted();
    w.StartElement("accounts");
    WriteManagement(w, config.management);
    WriteList(w, list);
    EndPair(w, before, Accounts, Leaf(AccountManagement, ManagementAttrs(config.management)),
                Group(List, AccountNodes(list.contents)));
  }

  method WriteDispatcher(w: ElementWriter, d: DispatcherCfg)
    modifies w
    ensures Wrote(w, Leaf(Dispatcher, DispatcherAttrs(d)), true)
  {
    ghost var before := w.Emitted();
    w.StartElement("dispatcher");
    w.AddAttribute("maxcalls", Some(IntToStr(d.maxCalls)));
    w.AddAttribute("maxevents", Some(IntToStr(d.maxEvents)));
    assert w.pending.value.1 == DispatcherAttrs(d);
    EndLeaf(w, before, Dispatcher, DispatcherAttrs(d));
  }

  method WriteEvents(w: ElementWriter, d: DispatcherCfg)
    modifies w
    ensures Wrote(w, Group(Events, [Leaf(Dispatcher, DispatcherAttrs(d))]), true)
  {
    ghost var before := w.Emitted();
    w.StartElement("events");
    WriteDispatcher(w, d);
    EndSingle(w, before, Events, Leaf(Dispatcher, DispatcherAttrs(d)));
  }

  method WriteRegistrarManager(w: ElementWriter, r: RegistrarCfg)
    modifies w
    ensures Wrote(w, Leaf(RegistrarManager, RegistrarAttrs(r)), true)
  {
    ghost var before := w.Emitted();
    w.StartElement("registrarmanager");
    w.AddAttribute("expire", Some(IntToStr(r.expire)));
    w.AddAttribute("preexpirerange", Some(IntToStr(r.preExpireRange)));
    w.AddAttribute("timeout", Some(IntToStr(r.timeout)));
    assert w.pending.value.1 == RegistrarAttrs(r);
    EndLeaf(w, before, RegistrarManager, RegistrarAttrs(r));
  }

  method WriteSipOutput(w: ElementWriter, r: RegistrarCfg)
    modifies w
    ensures Wrote(w, Group(SipOutput, [Leaf(RegistrarManager, RegistrarAttrs(r))]), true)
  {
    ghost var before := w.Emitted();
    w.StartElement("sipoutput");
    WriteRegistrarManager(w, r);
    EndSingle(w, before, SipOutput, Leaf(RegistrarManager, RegistrarAttrs(r)));
  }

  method WriteCore(w: ElementWriter, config: Config)
    modifies w
    ensures Wrote(w, CoreNode(config), true)
  {
    ghost var before := w.Emitted();
    w.StartElement("core");
    WriteEvents(w, config.dispatcher);
    WriteSipOutput(w, config.registrar);
    EndPair(w, before, Core, CoreNode(config).children[0], CoreNode(config).children[1]);
  }

  method WriteXmlrpcClient(w: ElementWriter, c: ClientCfg)
    modifies w
    ensures Wrote(w, Leaf(XmlrpcClient, ClientAttrs(c)), CompleteClient(c))
  {
    ghost var before := w.Emitted();
    w.StartElement("xmlrpcclient");
    w.AddAttribute("name", c.name);
    w.AddAttribute("version", c.version);
    assert w.pending.value.1 == ClientAttrs(c);
    EndLeaf(w, before, XmlrpcClient, ClientAttrs(c));
  }

  method WriteCallback(w: ElementWriter, c: ClientCfg)
    modifies w
    ensures Wrote(w, Group(Callback, [Leaf(XmlrpcClient, ClientAttrs(c))]), CompleteClient(c))
  {
    ghost var before := w.Emitted();
    w.StartElement("callback");
    WriteXmlrpcClient(w, c);
    EndSingle(w, before, Callback, Leaf(XmlrpcClient, ClientAttrs(c)));
  }

  method WriteXmlrpcServer(w: ElementWriter, s: ServerCfg)
    modifies w
    ensures Wrote(w, Leaf(XmlrpcServer, ServerAttrs(s)), CompleteServer(s))
  {
    ghost var before := w.Emitted();
    w.StartElement("xmlrpcserver");
    w.AddAttribute("logfilename", s.logFileName);
    w.AddAttribute("port", Some(IntToStr(s.port)));
    w.AddAttribute("registerprefix", s.registerPrefix);
    assert w.pending.value.1 == ServerAttrs(s);
    EndLeaf(w, before, XmlrpcServer, ServerAttrs(s));
  }

  method WriteServer(w: ElementWriter, s: ServerCfg)
    modifies w
    ensures Wrote(w, Group(Server, [Leaf(XmlrpcServer, ServerAttrs(s))]), CompleteServer(s))
  {
    ghost var before := w.Emitted();
    w.StartElement("server");
    WriteXmlrpcServer(w, s);
    EndSingle(w, before, Server, Leaf(XmlrpcServer, ServerAttrs(s)));
  }

  method WriteRemote(w: ElementWriter, config: Config)
    modifies w
    ensures Wrote(w, RemoteNode(config), CompleteClient(config.client) && CompleteServer(config.server))
  {
    ghost var before := w.Emitted();
    w.StartElement("remote");
    WriteCallback(w, config.client);
    WriteServer(w, config.server);
    EndPair(w, before, Remote, RemoteNode(config).children[0], RemoteNode(config).children[1]);
  }

  method WriteSipstack(w: ElementWriter, config: Config)
    modifies w
    ensures Wrote(w, SipstackNode(config), true)
  {
    ghost var before := w.Emitted();
    w.StartElement("sipstack");
    WriteNumber(w, ExosipAdapter, "port", config.sipPort);
    EndSingle(w, before, Sipstack, SipstackNode(config).children[0]);
  }

  /** An element whose only attribute is a number. */
  method WriteNumber(w: ElementWriter, tag: Tag, name: string, n: int)
    modifies w
    ensures Wrote(w, Leaf(tag, [(name, IntToStr(n))]), true)
  {
    ghost var before := w.Emitted();
    w.StartElement(NameOf(tag));
    w.AddAttribute(name, Some(IntToStr(n)));
    assert w.pending.value.1 == [(name, IntToStr(n))];
    EndLeaf(w, before, tag, [(name, IntToStr(n))]);
  }

  method WriteConsole(w: ElementWriter, c: ConsoleCfg)
    modifies w
    ensures Wrote(w, Leaf(Console, ConsoleAttrs(c)), true)
  {
    ghost var before := w.Emitted();
    w.StartElement("console");
    if c.enabled != 0 { w.AddAttribute("enabled", Some("true")); } else { w.AddAttribute("enabled", Some("false")); }
    w.AddAttribute("loglevel", Some(LoglevelToStr(c.logLevel)));
    assert w.pending.value.1 == ConsoleAttrs(c);
    EndLeaf(w, before, Console, ConsoleAttrs(c));
  }

  method WriteFile(w: ElementWriter, f: FileCfg)
    modifies w
    ensures Wrote(w, Leaf(File, FileAttrs(f)), f.fileName.Some?)
  {
    ghost var before := w.Emitted();
    w.StartElement("file");
    w.AddAttribute("enabled", Some(BoolToStr(f.enabled)));
    w.AddAttribute("loglevel", Some(LoglevelToStr(f.logLevel)));
    w.AddAttribute("filename", f.fileName);
    w.AddAttribute("withtime", Some(BoolToStr(f.withTime)));
    w.AddAttribute("verbose", Some(BoolToStr(f.verbose)));
    w.AddAttribute("threadid", Some(BoolToStr(f.threadId)));
    assert w.pending.value.1 == FileAttrs(f);
    EndLeaf(w, before, File, FileAttrs(f));
  }

  method WriteLogging(w: ElementWriter, config: Config)
    modifies w
    ensures Wrote(w, LoggingNode(config), config.file.fileName.Some?)
  {
    ghost var before := w.Emitted();
    ghost var logger := LoggingNode(config).children[0];
    w.StartElement("logging");
    ghost var inside := w.Emitted();
    w.StartElement("simplelogger");
    WriteConsole(w, config.console);
    WriteFile(w, config.file);
    EndPair(w, inside, SimpleLogger, logger.children[0], logger.children[1]);
    EndSingle(w, before, Logging, logger);
  }

  method WriteThreads(w: ElementWriter, config: Config)
    modifies w
    ensures Wrote(w, ThreadsNode(config), true)
  {
    ghost var before := w.Emitted();
    w.StartElement("threadmanagement");
    WriteNumber(w, Threads, "maxamount", config.maxThreads);
    EndSingle(w, before, ThreadManagement, ThreadsNode(config).children[0]);
  }

  method WriteUtil(w: ElementWriter, config: Config)
    modifies w
    ensures Wrote(w, UtilNode(config), config.file.fileName.Some?)
  {
    ghost var before := w.Emitted();
    w.StartElement("util");
    WriteLogging(w, config);
    WriteThreads(w, config);
    EndPair(w, before, Util, LoggingNode(config), ThreadsNode(config));
  }

  /** The five parts, in their order. */
  method WriteParts(w: ElementWriter, config: Config, list: AccountList)
    requires list.Valid()
    modifies w
    ensures w.Emitted() == old(w.Emitted()) + StreamAll(ConfigNode(config, list.contents).children)
    ensures w.open == old(w.open)
    ensures w.givenNull == (old(w.givenNull) || !(Complete(config) && CompleteAccounts(list.contents)))
  {
    ghost var before, ns := w.Emitted(), ConfigNode(config, list.contents).children;
    WriteAccounts(w, config, list);
    StreamFirst(before, ns[0]);
    WriteCore(w, config);
    StreamNext(before, ns[..1], ns[1]);
    WriteRemote(w, config);
    StreamNext(before, ns[..2], ns[2]);
    WriteSipstack(w, config);
    StreamNext(before, ns[..3], ns[3]);
    WriteUtil(w, config);
    StreamNext(before, ns[..4], ns[4]);
    PrefixesOf(ns);
  }

  lemma PrefixesOf(ns: seq<Node>)
    requires |ns| == 5
    ensures ns[..1] == [ns[0]] && ns[..2] == ns[..1] + [ns[1]] && ns[..3] == ns[..2] + [ns[2]]
    ensures ns[..4] == ns[..3] + [ns[3]] && ns == ns[..4] + [ns[4]]
  {
  }

  /**
   cw_save_config; nothing is written if the file cannot be opened. `givenNull` tells whether NULL was among the
   strings, and then nothing is said about the events.
   */
  method SaveConfig(config: Config, list: AccountList, canOpen: bool)
    returns (events: seq<Event>, ok: bool, givenNull: bool)
    requires list.Valid()
    ensures ok == canOpen
    ensures givenNull <==> canOpen && !(Complete(config) && CompleteAccounts(list.contents))
    ensures !givenNull ==> events == if canOpen then Flatten(Document(config, list.contents)) else []
  {
    if !canOpen { return [], false, false; }
    var w := new ElementWriter();
    w.StartElement("config");
    WriteParts(w, config, list);
    w.EndElement();
    StreamGroup([], ConfigTag, ConfigNode(config, list.contents).children);
    StreamIs(ConfigNode(config, list.contents));
    w.Flush();
    events, ok, givenNull := w.done, true, w.givenNull;
  }
}
