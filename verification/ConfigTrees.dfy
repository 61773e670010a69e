/** Reading a stream of events is reading the tree of elements it comes from. */
module ConfigTrees {
  import opened Options
  import opened AccountSpec
  import opened Configs
  import opened ConfigReading
  import opened Decimals

  /** Reading one element: its start tag, what is inside it, its end tag. */
  function ReadElement(r: Reader, e: Element, memory: nat -> Account): Reader
    decreases e, 1
  {
    Handle(ReadAll(Handle(r, Start(e.name, e.attrs), memory), e.children, memory), End(e.name), memory)
  }

  function ReadAll(r: Reader, es: seq<Element>, memory: nat -> Account): Reader
    decreases es, 0
  {
    if es == [] then r else ReadElement(ReadAll(r, es[..|es| - 1], memory), es[|es| - 1], memory)
  }

  lemma {:induction false} ReadAppend(r: Reader, a: seq<Event>, b: seq<Event>, memory: nat -> Account)
    ensures Read(r, a + b, memory) == Read(Read(r, a, memory), b, memory)
    decreases |b|
  {
    if b == [] {
      assert a + b == a;
    } else {
      var init, last := b[..|b| - 1], b[|b| - 1];
      assert (a + b)[..|a + b| - 1] == a + init && (a + b)[|a + b| - 1] == last;
      ReadAppend(r, a, init, memory);
    }
  }

  lemma ReadOne(r: Reader, e: Event, memory: nat -> Account)
    ensures Read(r, [e], memory) == Handle(r, e, memory)
  {
    assert [e][..0] == [];
  }

  /** The stream of a tree is read as the tree. */
  lemma {:induction false} ReadFlatten(r: Reader, e: Element, memory: nat -> Account)
    ensures Read(r, Flatten(e), memory) == ReadElement(r, e, memory)
    decreases e, 1
  {
    var start, end := [Start(e.name, e.attrs)], [End(e.name)];
    ReadAppend(r, start + FlattenAll(e.children), end, memory);
    ReadAppend(r, start, FlattenAll(e.children), memory);
    ReadOne(r, start[0], memory);
    ReadFlattenAll(Handle(r, start[0], memory), e.children, memory);
    ReadOne(Read(r, start + FlattenAll(e.children), memory), end[0], memory);
  }

  lemma {:induction false} ReadFlattenAll(r: Reader, es: seq<Element>, memory: nat -> Account)
    ensures Read(r, FlattenAll(es), memory) == ReadAll(r, es, memory)
    decreases es, 0
  {
    if es != [] {
      var init, last := es[..|es| - 1], es[|es| - 1];
      ReadAppend(r, FlattenAll(init), Flatten(last), memory);
      ReadFlattenAll(r, init, memory);
      ReadFlatten(Read(r, FlattenAll(init), memory), last, memory);
    }
  }

  /** The same with the names of the elements resolved. */
  function ReadNode(r: Reader, n: Node, memory: nat -> Account): Reader
    decreases n, 1
  {
    OnEnd(ReadNodes(OnStart(r, n.tag, n.attrs, memory), n.children, memory), n.tag)
  }

  function ReadNodes(r: Reader, ns: seq<Node>, memory: nat -> Account): Reader
    decreases ns, 0
  {
    if ns == [] then r else ReadNode(ReadNodes(r, ns[..|ns| - 1], memory), ns[|ns| - 1], memory)
  }

  lemma {:induction false} ReadRender(r: Reader, n: Node, memory: nat -> Account)
    ensures ReadElement(r, Render(n), memory) == ReadNode(r, n, memory)
    decreases n, 1
  {
    TagOfName(n.tag);
    ReadRenderAll(OnStart(r, n.tag, n.attrs, memory), n.children, memory);
  }

  lemma {:induction false} ReadRenderAll(r: Reader, ns: seq<Node>, memory: nat -> Account)
    ensures ReadAll(r, RenderAll(ns), memory) == ReadNodes(r, ns, memory)
    decreases ns, 0
  {
    if ns != [] {
      var es := RenderAll(ns);
      assert es[..|es| - 1] == RenderAll(ns[..|ns| - 1]);
      ReadRenderAll(r, ns[..|ns| - 1], memory);
      ReadRender(ReadNodes(r, ns[..|ns| - 1], memory), ns[|ns| - 1], memory);
    }
  }

  // ---- flags ----

  /** No element that the reader knows stands inside another of its name, nor inside one of `open`. */
  predicate NoSelfNesting(e: Element, open: set<Tag>)
    decreases e, 1
  {
    match TagOf(e.name)
    case None => AllNoSelfNesting(e.children, open)
    case Some(tag) => tag !in open && AllNoSelfNesting(e.children, open + {tag})
  }

  predicate AllNoSelfNesting(es: seq<Element>, open: set<Tag>)
    decreases es, 0
  {
    es == [] || (AllNoSelfNesting(es[..|es| - 1], open) && NoSelfNesting(es[|es| - 1], open))
  }

  /**
   After any document without self-nesting, whatever its elements and wherever they stand, the flags are as
   before.
   */
  lemma {:induction false} FlagsBalanced(r: Reader, e: Element, open: set<Tag>, memory: nat -> Account)
    requires NoSelfNesting(e, open) && r.within <= open
    ensures ReadElement(r, e, memory).within == r.within
    decreases e, 1
  {
    var s := Handle(r, Start(e.name, e.attrs), memory);
    match TagOf(e.name) {
      case None => FlagsBalancedAll(s, e.children, open, memory);
      case Some(tag) => FlagsBalancedAll(s, e.children, open + {tag}, memory);
    }
  }

  lemma {:induction false} FlagsBalancedAll(r: Reader, es: seq<Element>, open: set<Tag>, memory: nat -> Account)
    requires AllNoSelfNesting(es, open) && r.within <= open
    ensures ReadAll(r, es, memory).within == r.within
    decreases es, 0
  {
    if es != [] {
      FlagsBalancedAll(r, es[..|es| - 1], open, memory);
      FlagsBalanced(ReadAll(r, es[..|es| - 1], memory), es[|es| - 1], open, memory);
    }
  }

  // ---- the order of attributes ----

  predicate DistinctNames(attrs: seq<Attr>) {
    forall i, j :: 0 <= i < j < |attrs| ==> attrs[i].0 != attrs[j].0
  }

  /** The same elements in the same order, with the attributes of each in any order. */
  ghost predicate Reordered(e: Element, f: Element)
    decreases e, 1
  {
    && e.name == f.name
    && multiset(e.attrs) == multiset(f.attrs) && DistinctNames(e.attrs) && DistinctNames(f.attrs)
    && AllReordered(e.children, f.children)
  }

  ghost predicate AllReordered(es: seq<Element>, fs: seq<Element>)
    decreases es, 0
  {
    && |es| == |fs|
    && (es == [] || (AllReordered(es[..|es| - 1], fs[..|fs| - 1]) && Reordered(es[|es| - 1], fs[|fs| - 1])))
  }

  lemma FileCommutes(f: FileCfg, a: Attr, b: Attr)
    requires a.0 != b.0
    ensures SetFile(SetFile(f, a.0, a.1), b.0, b.1) == SetFile(SetFile(f, b.0, b.1), a.0, a.1)
  {
  }

  lemma ConfigCommutes(tag: Tag, c: Config, a: Attr, b: Attr)
    requires a.0 != b.0
    ensures SetConfig(tag, SetConfig(tag, c, a.0, a.1), b.0, b.1)
            == SetConfig(tag, SetConfig(tag, c, b.0, b.1), a.0, a.1)
  {
    FileCommutes(c.file, a, b);
  }

  /** The position of an account attribute among those the reader tests for, 10 if it is none of them. */
  function Field(n: string): (k: nat)
  {
    if n == "name" then 0
    else if n == "username" then 1
    else if n == "domain" then 2
    else if n == "authusername" then 3
    else if n == "password" then 4
    else if n == "displayname" then 5
    else if n == "outboundproxy" then 6
    else if n == "registrar" then 7
    else if n == "autoregister" then 8
    else if n == "id" then 9
    else 10
  }

  lemma FieldIsName(m: string, n: string)
    requires Field(m) == Field(n) != 10
    ensures m == n
  {
  }

  function SetField(a: Account, k: nat, v: string): Account {
    match k
    case 0 => a.(name := Some(v))
    case 1 => a.(username := Some(v))
    case 2 => a.(domain := Some(v))
    case 3 => a.(authusername := Some(v))
    case 4 => a.(password := Some(v))
    case 5 => a.(displayname := Some(v))
    case 6 => a.(outboundproxy := Some(v))
    case 7 => a.(registrar := Some(v))
    case 8 => a.(autoregister := ParseBool(v))
    case 9 => a.(id := Atoi(v))
    case _ => a
  }

  lemma SetByField(a: Account, n: string, v: string)
    ensures SetAccount(a, n, v) == SetField(a, Field(n), v)
  {
  }

  lemma FieldsCommute(c: Account, j: nat, v: string, k: nat, w: string)
    requires j != k || j >= 10
    ensures SetField(SetField(c, j, v), k, w) == SetField(SetField(c, k, w), j, v)
  {
  }

  lemma AccountCommutes(c: Account, a: Attr, b: Attr)
    requires a.0 != b.0
    ensures SetAccount(SetAccount(c, a.0, a.1), b.0, b.1) == SetAccount(SetAccount(c, b.0, b.1), a.0, a.1)
  {
    if Field(a.0) == Field(b.0) != 10 { FieldIsName(a.0, b.0); }
    FieldsCommute(c, Field(a.0), a.1, Field(b.0), b.1);
    SetByField(c, a.0, a.1);
    SetByField(c, b.0, b.1);
    SetByField(SetAccount(c, a.0, a.1), b.0, b.1);
    SetByField(SetAccount(c, b.0, b.1), a.0, a.1);
  }

  lemma SetsCommute(tag: Tag, t: Target, a: Attr, b: Attr)
    requires a.0 != b.0
    ensures SetOne(tag, SetOne(tag, t, a.0, a.1), b.0, b.1) == SetOne(tag, SetOne(tag, t, b.0, b.1), a.0, a.1)
  {
    if tag == AccountTag { AccountCommutes(t.account, a, b); } else { ConfigCommutes(tag, t.config, a, b); }
  }

  lemma RestSplits(attrs: seq<Attr>, k: nat)
    requires k < |attrs| - 1
    ensures var init, rest := attrs[..|attrs| - 1], attrs[..k] + attrs[k + 1..];
            && rest[..|rest| - 1] == init[..k] + init[k + 1..] && rest[|rest| - 1] == attrs[|attrs| - 1]
  {
  }

  /** An attribute may as well come last. */
  lemma {:induction false} MoveToEnd(tag: Tag, t: Target, attrs: seq<Attr>, k: nat)
    requires k < |attrs| && DistinctNames(attrs)
    ensures SetAll(tag, t, attrs) == SetOne(tag, SetAll(tag, t, attrs[..k] + attrs[k + 1..]), attrs[k].0, attrs[k].1)
    decreases |attrs|
  {
    var init, last := attrs[..|attrs| - 1], attrs[|attrs| - 1];
    if k == |attrs| - 1 {
      assert attrs[..k] + attrs[k + 1..] == init;
    } else {
      RestSplits(attrs, k);
      MoveToEnd(tag, t, init, k);
      SetsCommute(tag, SetAll(tag, t, init[..k] + init[k + 1..]), attrs[k], last);
    }
  }

  lemma WithoutOne(attrs: seq<Attr>, k: nat)
    requires k < |attrs|
    ensures multiset(attrs[..k] + attrs[k + 1..]) == multiset(attrs) - multiset{attrs[k]}
  {
    assert attrs == attrs[..k] + [attrs[k]] + attrs[k + 1..];
  }

  /** The order of the attributes of an element makes no difference. */
  lemma {:induction false} OrderIsIrrelevant(tag: Tag, t: Target, p: seq<Attr>, q: seq<Attr>)
    requires multiset(p) == multiset(q) && DistinctNames(p) && DistinctNames(q)
    ensures SetAll(tag, t, p) == SetAll(tag, t, q)
    decreases |p|
  {
    if p == [] {
      assert |q| == |multiset(q)| == 0;
    } else {
      var m := |p| - 1;
      assert p[m] in multiset(q);
      var k :| 0 <= k < |q| && q[k] == p[m];
      WithoutOne(p, m);
      WithoutOne(q, k);
      MoveToEnd(tag, t, p, m);
      MoveToEnd(tag, t, q, k);
      OrderIsIrrelevant(tag, t, p[..m] + p[m + 1..], q[..k] + q[k + 1..]);
    }
  }

  /** Nor does the order of attributes anywhere in a document. */
  lemma {:induction false} ReadReordered(r: Reader, e: Element, f: Element, memory: nat -> Account)
    requires Reordered(e, f)
    ensures ReadElement(r, e, memory) == ReadElement(r, f, memory)
    decreases e, 1
  {
    match TagOf(e.name) {
      case None =>
      case Some(tag) => OrderIsIrrelevant(tag, Target(r.config, memory(|r.accounts|)), e.attrs, f.attrs);
    }
    assert Handle(r, Start(e.name, e.attrs), memory) == Handle(r, Start(f.name, f.attrs), memory);
    ReadAllReordered(Handle(r, Start(e.name, e.attrs), memory), e.children, f.children, memory);
  }

  lemma {:induction false} ReadAllReordered(r: Reader, es: seq<Element>, fs: seq<Element>, memory: nat -> Account)
    requires AllReordered(es, fs)
    ensures ReadAll(r, es, memory) == ReadAll(r, fs, memory)
    decreases es, 0
  {
    if es != [] {
      ReadAllReordered(r, es[..|es| - 1], fs[..|fs| - 1], memory);
      ReadReordered(ReadAll(r, es[..|es| - 1], memory), es[|es| - 1], fs[|fs| - 1], memory);
    }
  }

  // ---- an attribute given twice ----

  lemma FileOverwrites(f: FileCfg, n: string, v: string, w: string)
    ensures SetFile(SetFile(f, n, v), n, w) == SetFile(f, n, w)
  {
  }

  lemma ConfigOverwrites(tag: Tag, c: Config, n: string, v: string, w: string)
    ensures SetConfig(tag, SetConfig(tag, c, n, v), n, w) == SetConfig(tag, c, n, w)
  {
    FileOverwrites(c.file, n, v, w);
  }

  lemma FieldOverwrites(a: Account, k: nat, v: string, w: string)
    ensures SetField(SetField(a, k, v), k, w) == SetField(a, k, w)
  {
  }

  lemma SetsOverwrite(tag: Tag, t: Target, n: string, v: string, w: string)
    ensures SetOne(tag, SetOne(tag, t, n, v), n, w) == SetOne(tag, t, n, w)
  {
    if tag == AccountTag {
      var a := t.account;
      FieldOverwrites(a, Field(n), v, w);
      SetByField(a, n, v);
      SetByField(a, n, w);
      SetByField(SetAccount(a, n, v), n, w);
    } else {
      ConfigOverwrites(tag, t.config, n, v, w);
    }
  }

  /** What an attribute has set does not matter once its name comes again, whatever stands in between. */
  lemma {:induction false} SetAgain(tag: Tag, t: Target, attrs: seq<Attr>, i: nat, w: string)
    requires i < |attrs|
    ensures SetOne(tag, SetAll(tag, t, attrs), attrs[i].0, w)
            == SetOne(tag, SetAll(tag, t, attrs[..i] + attrs[i + 1..]), attrs[i].0, w)
    decreases |attrs|
  {
    var n, init, last := attrs[i].0, attrs[..|attrs| - 1], attrs[|attrs| - 1];
    if i == |attrs| - 1 {
      assert attrs[..i] + attrs[i + 1..] == init;
      SetsOverwrite(tag, SetAll(tag, t, init), n, last.1, w);
    } else {
      RestSplits(attrs, i);
      SetAgain(tag, t, init, i, w);
      var full, rest := SetAll(tag, t, init), SetAll(tag, t, init[..i] + init[i + 1..]);
      SetPast(tag, full, rest, last, n, w);
    }
  }

  /** One more attribute keeps two targets alike in all but what `n` sets. */
  lemma SetPast(tag: Tag, t: Target, u: Target, a: Attr, n: string, w: string)
    requires SetOne(tag, t, n, w) == SetOne(tag, u, n, w)
    ensures SetOne(tag, SetOne(tag, t, a.0, a.1), n, w) == SetOne(tag, SetOne(tag, u, a.0, a.1), n, w)
  {
    if a.0 == n {
      SetsOverwrite(tag, t, n, a.1, w);
      SetsOverwrite(tag, u, n, a.1, w);
    } else {
      SetsCommute(tag, t, a, (n, w));
      SetsCommute(tag, u, a, (n, w));
    }
  }

  /** Of two attributes with the same name the later one wins: the earlier one might as well be missing. */
  lemma {:induction false} LaterAttributeWins(tag: Tag, t: Target, attrs: seq<Attr>, i: nat, j: nat)
    requires i < j < |attrs| && attrs[i].0 == attrs[j].0
    ensures SetAll(tag, t, attrs) == SetAll(tag, t, attrs[..i] + attrs[i + 1..])
    decreases |attrs|
  {
    var init := attrs[..|attrs| - 1];
    RestSplits(attrs, i);
    if j == |attrs| - 1 {
      SetAgain(tag, t, init, i, attrs[j].1);
    } else {
      LaterAttributeWins(tag, t, init, i, j);
    }
  }
}
