/**
 The configuration of util/config/globals.h and the XML it is kept in, as a tree of elements and a stream of
 events.
 */
module Configs {
  import opened Options
  import opened AccountSpec
  import opened Decimals

  datatype ConsoleCfg = ConsoleCfg(enabled: int, logLevel: int)
  datatype FileCfg = FileCfg(enabled: int, fileName: Option<string>, logLevel: int, withTime: int, verbose: int,
                             threadId: int)
  datatype ClientCfg = ClientCfg(name: Option<string>, version: Option<string>)
  datatype ServerCfg = ServerCfg(port: int, registerPrefix: Option<string>, logFileName: Option<string>)
  datatype RegistrarCfg = RegistrarCfg(expire: int, preExpireRange: int, timeout: int)
  datatype DispatcherCfg = DispatcherCfg(maxCalls: int, maxEvents: int)
  datatype ManagementCfg = ManagementCfg(maxAccountIdAmount: int, maxValueLength: int)
  datatype Config = Config(console: ConsoleCfg, file: FileCfg, maxThreads: int, dispatcher: DispatcherCfg,
                           registrar: RegistrarCfg, client: ClientCfg, server: ServerCfg, sipPort: int,
                           management: ManagementCfg)

  /** The elements that the reader knows. */
  datatype Tag = ConfigTag | Accounts | Core | Remote | Sipstack | Util | Logging | SimpleLogger | Console | File
               | ThreadManagement | Threads | Server | Callback | XmlrpcServer | XmlrpcClient | Events | Dispatcher
                | List
               | ExosipAdapter | AccountManagement | SipOutput | RegistrarManager | AccountTag

  function NameOf(tag: Tag): string {
    match tag
    case ConfigTag => "config"
    case Accounts => "accounts"
    case Core => "core"
    case Remote => "remote"
    case Sipstack => "sipstack"
    case Util => "util"
    case Logging => "logging"
    case SimpleLogger => "simplelogger"
    case Console => "console"
    case File => "file"
    case ThreadManagement => "threadmanagement"
    case Threads => "threads"
    case Server => "server"
    case Callback => "callback"
    case XmlrpcServer => "xmlrpcserver"
    case XmlrpcClient => "xmlrpcclient"
    case Events => "events"
    case Dispatcher => "dispatcher"
    case List => "list"
    case ExosipAdapter => "exosipadapter"
    case AccountManagement => "accountmanagement"
    case SipOutput => "sipoutput"
    case RegistrarManager => "registrarmanager"
    case AccountTag => "account"
  }

  type Attr = (string, string)

  datatype Element = Element(name: string, attrs: seq<Attr>, children: seq<Element>)

  datatype Event = Start(name: string, attrs: seq<Attr>) | End(name: string)

  /** The events of one element, and of several in a row. */
  function Flatten(e: Element): seq<Event>
    decreases e, 1
  {
    [Start(e.name, e.attrs)] + FlattenAll(e.children) + [End(e.name)]
  }

  function FlattenAll(es: seq<Element>): seq<Event>
    decreases es, 0
  {
    if es == [] then [] else FlattenAll(es[..|es| - 1]) + Flatten(es[|es| - 1])
  }

  // ---- the document that cw_save_config writes ----

  /** No string that is written is NULL. */
  predicate Complete(c: Config) {
    c.file.fileName.Some? && CompleteClient(c.client) && CompleteServer(c.server)
  }

  predicate CompleteClient(c: ClientCfg) {
    c.name.Some? && c.version.Some?
  }

  predicate CompleteServer(s: ServerCfg) {
    s.registerPrefix.Some? && s.logFileName.Some?
  }

  predicate CompleteAccount(a: Account) {
    && a.name.Some? && a.username.Some? && a.domain.Some? && a.authusername.Some? && a.password.Some?
    && a.displayname.Some? && a.outboundproxy.Some? && a.registrar.Some?
  }

  predicate CompleteAccounts(accounts: seq<Account>) {
    forall i :: 0 <= i < |accounts| ==> CompleteAccount(accounts[i])
  }

  /** A string that is written; what genx makes of NULL is not known, and "" only stands for it. */
  function Text(s: Option<string>): string {
    if s.Some? then s.value else ""
  }

  /** An element of the document, by what it stands for. */
  datatype Node = Node(tag: Tag, attrs: seq<Attr>, children: seq<Node>)

  function Leaf(tag: Tag, attrs: seq<Attr>): Node {
    Node(tag, attrs, [])
  }

  function Group(tag: Tag, children: seq<Node>): Node {
    Node(tag, [], children)
  }

  /** The element itself. */
  function Render(n: Node): Element
    decreases n, 1
  {
    Element(NameOf(n.tag), n.attrs, RenderAll(n.children))
  }

  function RenderAll(ns: seq<Node>): (es: seq<Element>)
    ensures |es| == |ns|
    decreases ns, 0
  {
    if ns == [] then [] else RenderAll(ns[..|ns| - 1]) + [Render(ns[|ns| - 1])]
  }

  function AccountAttrs(a: Account): seq<Attr> {
    [("id", IntToStr(a.id)), ("name", Text(a.name)), ("username", Text(a.username)), ("domain", Text(a.domain)),
     ("authusername", Text(a.authusername)), ("password", Text(a.password)), ("displayname", Text(a.displayname)),
     ("outboundproxy", Text(a.outboundproxy)), ("registrar", Text(a.registrar)),
     ("autoregister", BoolToStr(a.autoregister))]
  }

  function AccountNodes(accounts: seq<Account>): seq<Node> {
    seq(|accounts|, i requires 0 <= i < |accounts| => Leaf(AccountTag, AccountAttrs(accounts[i])))
  }

  function ManagementAttrs(m: ManagementCfg): seq<Attr> {
    [("maxaccountidamount", IntToStr(m.maxAccountIdAmount)), ("maxvaluelength", IntToStr(m.maxValueLength))]
  }

  function DispatcherAttrs(d: DispatcherCfg): seq<Attr> {
    [("maxcalls", IntToStr(d.maxCalls)), ("maxevents", IntToStr(d.maxEvents))]
  }

  function RegistrarAttrs(r: RegistrarCfg): seq<Attr> {
    [("expire", IntToStr(r.expire)), ("preexpirerange", IntToStr(r.preExpireRange)), ("timeout", IntToStr(r.timeout))]
  }

  function ClientAttrs(c: ClientCfg): seq<Attr> {
    [("name", Text(c.name)), ("version", Text(c.version))]
  }

  function ServerAttrs(s: ServerCfg): seq<Attr> {
    [("logfilename", Text(s.logFileName)), ("port", IntToStr(s.port)), ("registerprefix", Text(s.registerPrefix))]
  }

  function ConsoleAttrs(c: ConsoleCfg): seq<Attr> {
    [("enabled", BoolToStr(c.enabled)), ("loglevel", LoglevelToStr(c.logLevel))]
  }

  function FileAttrs(f: FileCfg): seq<Attr> {
    [("enabled", BoolToStr(f.enabled)), ("loglevel", LoglevelToStr(f.logLevel)), ("filename", Text(f.fileName)),
     ("withtime", BoolToStr(f.withTime)), ("verbose", BoolToStr(f.verbose)), ("threadid", BoolToStr(f.threadId))]
  }

  function AccountsNode(c: Config, accounts: seq<Account>): Node {
    Group(Accounts, [Leaf(AccountManagement, ManagementAttrs(c.management)), Group(List, AccountNodes(accounts))])
  }

  /** An element of two groups of one element each. */
  function TwoGroups(tag: Tag, g: Tag, leaf: Tag, attrs: seq<Attr>, g': Tag, leaf': Tag, attrs': seq<Attr>): Node {
    Group(tag, [Group(g, [Leaf(leaf, attrs)]), Group(g', [Leaf(leaf', attrs')])])
  }

  function CoreNode(c: Config): Node {
    TwoGroups(Core, Events, Dispatcher, DispatcherAttrs(c.dispatcher),
              SipOutput, RegistrarManager, RegistrarAttrs(c.registrar))
  }

  function RemoteNode(c: Config): Node {
    TwoGroups(Remote, Callback, XmlrpcClient, ClientAttrs(c.client), Server, XmlrpcServer, ServerAttrs(c.server))
  }

  function SipstackNode(c: Config): Node {
    Group(Sipstack, [Leaf(ExosipAdapter, [("port", IntToStr(c.sipPort))])])
  }

  function LoggingNode(c: Config): Node {
    Group(Logging, [Group(SimpleLogger, [Leaf(Console, ConsoleAttrs(c.console)), Leaf(File, FileAttrs(c.file))])])
  }

  function ThreadsNode(c: Config): Node {
    Group(ThreadManagement, [Leaf(Threads, [("maxamount", IntToStr(c.maxThreads))])])
  }

  function UtilNode(c: Config): Node {
    Group(Util, [LoggingNode(c), ThreadsNode(c)])
  }

  function ConfigNode(c: Config, accounts: seq<Account>): Node {
    Group(ConfigTag, [AccountsNode(c, accounts), CoreNode(c), RemoteNode(c), SipstackNode(c), UtilNode(c)])
  }

  function Document(c: Config, accounts: seq<Account>): Element {
    Render(ConfigNode(c, accounts))
  }
}
