/**
 Clash proxies in block style, as subscriptions write them: a tree of scalars, flow maps,
 lists and nested mappings, each deeper level at any larger column. The reader's indentation
 stack gives back every leaf under its dotted path, and the document walk every proxy.
 */
module ClashBlocks {
  import opened Yaml
  import opened ClashPrinter
  import opened ClashParser
  import opened ClashRoundTrip
  import opened ClashDocument
  import opened Sequences

  /** One key of a mapping; `text` is a scalar as written, `shift` how much deeper the next level is. */
  datatype Node =
    | Value(key: string, text: string)
    | Flow(key: string, parts: seq<Part>)
    | List(key: string, shift: nat, items: seq<string>)
    | Mapping(key: string, shift: nat, kids: seq<Node>)

  // ---- the text ----

  function Dashes(col: nat, items: seq<string>): seq<string> {
    seq(|items|, i requires 0 <= i < |items| => Spaces(col) + ("- " + items[i]))
  }

  /** The first line of a node, without its indentation. */
  function Opening(n: Node, fl: FloatTest): string {
    match n
    case Value(key, text) => key + ": " + text
    case Flow(key, parts) => key + ": " + MapText(parts, fl)
    case List(key, _, _) => key + ":"
    case Mapping(key, _, _) => key + ":"
  }

  /** The lines below it. */
  function Below(col: nat, n: Node, fl: FloatTest): seq<string>
    decreases n, 0
  {
    match n
    case Value(_, _) => []
    case Flow(_, _) => []
    case List(_, shift, items) => Dashes(col + shift, items)
    case Mapping(_, shift, kids) => TreeLines(col + shift, kids, fl)
  }

  /** A mapping at column `col`. */
  function TreeLines(col: nat, ns: seq<Node>, fl: FloatTest): seq<string>
    decreases ns, 0
  {
    if ns == [] then []
    else [Spaces(col) + Opening(ns[0], fl)] + Below(col, ns[0], fl) + TreeLines(col, ns[1..], fl)
  }

  ghost predicate NodeOk(n: Node, fl: FloatTest)
    decreases n, 0
  {
    && KeyOk(n.key)
    && match n
       case Value(_, text) => Legible(text) && !("{" <= text)
       case Flow(_, parts) => parts != [] && (forall q :: q in parts ==> PartOk(q)) && Legible(MapText(parts, fl))
       case List(_, shift, items) => shift > 0 && forall t :: t in items ==> Tight(t)
       case Mapping(_, shift, kids) => shift > 0 && NodesOk(kids, fl)
  }

  ghost predicate NodesOk(ns: seq<Node>, fl: FloatTest)
    decreases ns, 0
  {
    ns == [] || (NodeOk(ns[0], fl) && NodesOk(ns[1..], fl))
  }

  // ---- its meaning ----

  /** A value for a path, or items for the list at a path. */
  datatype Entry = Put(path: string, val: string) | Add(path: string, items: seq<string>)

  function Puts(es: seq<Pair>): seq<Entry> { seq(|es|, i requires 0 <= i < |es| => Put(es[i].key, es[i].val)) }

  function Unquoted(items: seq<string>): seq<string> {
    seq(|items|, i requires 0 <= i < |items| => Unquote(items[i]))
  }

  function NodeEntries(path: string, n: Node): seq<Entry>
    decreases n, 0
  {
    var here := Dotted(path, n.key);
    match n
    case Value(_, text) => [Put(here, Unquote(text))]
    case Flow(_, parts) => Puts(PartEntries(here, parts))
    case List(_, _, items) => [Add(here, Unquoted(items))]
    case Mapping(_, _, kids) => Entries(here, kids)
  }

  /** Every leaf of a mapping under the dotted path of the keys above it, in order. */
  function Entries(path: string, ns: seq<Node>): seq<Entry>
    decreases ns, 0
  {
    if ns == [] then [] else NodeEntries(path, ns[0]) + Entries(path, ns[1..])
  }

  function JoinCommas(items: seq<string>): string {
    if items == [] then "" else if |items| == 1 then items[0] else items[0] + "," + JoinCommas(items[1..])
  }

  /** Items joined by commas in order; leading empty ones leave no comma. */
  function CommaList(items: seq<string>): string {
    if items != [] && items[0] == "" then CommaList(items[1..]) else JoinCommas(items)
  }

  /** A later value replaces an earlier one; a list goes on from what its path already holds. */
  function Enter(pm: ProxyMap, e: Entry): ProxyMap {
    match e
    case Put(path, val) => pm[path := val]
    case Add(path, items) =>
      if items == [] then pm else pm[path := CommaList((if path in pm then [pm[path]] else []) + items)]
  }

  function EnterAll(pm: ProxyMap, es: seq<Entry>): ProxyMap
    decreases es
  {
    if es == [] then pm else EnterAll(Enter(pm, es[0]), es[1..])
  }

  lemma {:induction false} EnterConcat(pm: ProxyMap, a: seq<Entry>, b: seq<Entry>)
    ensures EnterAll(pm, a + b) == EnterAll(EnterAll(pm, a), b)
    decreases a
  {
    if a == [] {
      assert a + b == b;
    } else {
      assert (a + b)[1..] == a[1..] + b;
      EnterConcat(Enter(pm, a[0]), a[1..], b);
    }
  }

  lemma {:induction false} EnterPuts(pm: ProxyMap, es: seq<Pair>)
    ensures EnterAll(pm, Puts(es)) == InsertAll(pm, es)
    decreases es
  {
    if es != [] {
      assert Puts(es)[1..] == Puts(es[1..]);
      EnterPuts(pm[es[0].key := es[0].val], es[1..]);
    }
  }

  function PathsOf(es: seq<Entry>): seq<string> { seq(|es|, i requires 0 <= i < |es| => es[i].path) }

  /** With no path given twice, every leaf is found under its own path, and nothing else is. */
  lemma {:induction false} EachPathHeld(pm: ProxyMap, es: seq<Entry>)
    requires forall i, j :: 0 <= i < j < |es| ==> es[i].path != es[j].path
    requires forall e :: e in es ==> e.path !in pm
    ensures forall path :: path in EnterAll(pm, es) <==>
              path in pm || exists e :: e in es && e.path == path && !(e.Add? && e.items == [])
    ensures forall path :: path in pm ==> EnterAll(pm, es)[path] == pm[path]
    ensures forall e :: e in es && !(e.Add? && e.items == []) ==>
              EnterAll(pm, es)[e.path] == if e.Put? then e.val else CommaList(e.items)
    decreases es
  {
    if es != [] {
      var e, next := es[0], Enter(pm, es[0]);
      assert e in es && es == [e] + es[1..];
      forall f | f in es[1..] ensures f.path !in next {
        var i :| 0 <= i < |es| - 1 && es[1..][i] == f;
        assert es[i + 1] == f;
      }
      EachPathHeld(next, es[1..]);
      assert [] + (if e.Add? then e.items else []) == if e.Add? then e.items else [];
    }
  }

  // ---- the stack ----

  /** The frames `base` stay for a line at this column, all others above them go. */
  ghost predicate Above(base: seq<Frame>, stack: seq<Frame>, col: nat) {
    && base <= stack && (base != [] ==> base[|base| - 1].indent < col)
    && forall f :: f in stack[|base|..] ==> f.indent >= col
  }

  lemma {:induction false} PopsTo(base: seq<Frame>, stack: seq<Frame>, col: nat)
    requires Above(base, stack, col)
    ensures Pop(stack, col) == base
  {
    if stack != base {
      var n := |stack| - 1;
      assert stack[n] == stack[|base|..][n - |base|] && stack[n] in stack[|base|..];
      forall f | f in stack[..n][|base|..] ensures f in stack[|base|..] {
        var i :| 0 <= i < n - |base| && stack[..n][|base|..][i] == f;
        assert stack[|base|..][i] == f;
      }
      PopsTo(base, stack[..n], col);
    }
  }

  function PathAt(base: seq<Frame>): string { if base == [] then "" else base[|base| - 1].prefix }

  // ---- lines ----

  lemma OpenerText(k: string)
    requires KeyOk(k)
    ensures Legible(k + ":") && Plain(k + ":")
  {
    var s := k + ":";
    KeyFacts(k);
    assert k + ": " == s + " " && (k + ": ")[..|s|] == s;
    forall c | c in s ensures c in k + ": " {}
    PlainQuiet(' ', TOP, s);
    assert s[0] == k[0] && k[0] in k;
    forall c | c in k ensures c != '\n' { assert !IsSpace(c); }
  }

  lemma OpenerSplits(k: string)
    requires KeyOk(k)
    ensures SplitKV(k + ":") == KV(k, "")
  {
    var s := k + ":";
    KeyFacts(k);
    assert s[..|k|] == k && s[|k| + 1..] == "";
    forall c | c in k ensures c in k + ": " {}
    PlainColon(s, 0, |k|);
    TrimTight(k);
    assert TrimSpace("") == "" && StripInlineComment("") == "";
  }

  lemma OpenerFacts(k: string, n: nat)
    requires KeyOk(k)
    ensures var s := k + ":";
      && TrimSpace(Spaces(n) + s) == s && IndentOf(Spaces(n) + s) == n
      && !Skipped(s) && !IsSeqItem(s) && !("{" <= s) && SplitKV(s) == KV(k, "")
  {
    OpenerText(k);
    OpenerSplits(k);
    TrimPadded(n, k + ":");
    IndentPadded(n, k + ":");
    assert (k + ":")[0] == k[0] && k[0] in k;
  }

  lemma ItemFacts(t: string, n: nat)
    requires Tight(t)
    ensures var s := "- " + t;
      && TrimSpace(Spaces(n) + s) == s && IndentOf(Spaces(n) + s) == n
      && !Skipped(s) && IsSeqItem(s) && Unquote(TrimSpace(s[1..])) == Unquote(t)
  {
    var s := "- " + t;
    assert Tight(s) && s[..2] == "- " && s[1..] == " " + t;
    TrimPadded(n, s);
    IndentPadded(n, s);
    TrimTight(t);
  }

  lemma ValueLine(b: Block, base: seq<Frame>, col: nat, n: Node, fl: FloatTest)
    requires NodeOk(n, fl) && n.Value? && Above(base, b.stack, col)
    ensures BlockStep(b, Spaces(col) + Opening(n, fl)) ==
      Good(Block(EnterAll(b.pm, NodeEntries(PathAt(base), n)), base))
  {
    LineFacts(n.key, n.text, col);
    PopsTo(base, b.stack, col);
    assert NodeEntries(PathAt(base), n)[1..] == [];
  }

  lemma FlowLine(b: Block, base: seq<Frame>, col: nat, n: Node, fl: FloatTest)
    requires NodeOk(n, fl) && n.Flow? && Above(base, b.stack, col)
    ensures BlockStep(b, Spaces(col) + Opening(n, fl)) ==
      Good(Block(EnterAll(b.pm, NodeEntries(PathAt(base), n)), base))
  {
    var here := Dotted(PathAt(base), n.key);
    LineFacts(n.key, MapText(n.parts, fl), col);
    PopsTo(base, b.stack, col);
    FlowReads(n.parts, "", map[], fl);
    MergedEntries(b.pm, here, n.parts);
    EnterPuts(b.pm, PartEntries(here, n.parts));
  }

  lemma OpenerLine(b: Block, base: seq<Frame>, col: nat, n: Node, fl: FloatTest)
    requires NodeOk(n, fl) && (n.List? || n.Mapping?) && Above(base, b.stack, col)
    ensures BlockStep(b, Spaces(col) + Opening(n, fl)) ==
      Good(Block(b.pm, base + [Frame(col, Dotted(PathAt(base), n.key))]))
  {
    OpenerFacts(n.key, col);
    PopsTo(base, b.stack, col);
  }

  lemma JoinMerges(a: string, items: seq<string>)
    requires items != []
    ensures JoinCommas([a] + items) == JoinCommas([a + "," + items[0]] + items[1..])
  {
    var one, rest := a + "," + items[0], items[1..];
    assert ([a] + items)[1..] == items;
    assert JoinCommas([a] + items) == a + "," + JoinCommas(items);
    if rest == [] {
      assert [one] + rest == [one];
    } else {
      assert ([one] + rest)[1..] == rest;
      assert JoinCommas(items) == items[0] + "," + JoinCommas(rest);
      Associates(a, items[0], JoinCommas(rest));
    }
  }

  lemma Associates(a: string, b: string, c: string)
    ensures a + "," + (b + "," + c) == a + "," + b + "," + c
  {}

  /** One more item goes behind a comma, or starts the list. */
  lemma ItemJoins(prior: string, items: seq<string>)
    requires items != []
    ensures CommaList([prior] + items) ==
      CommaList([if prior == "" then items[0] else prior + "," + items[0]] + items[1..])
  {
    if prior == "" {
      assert ([prior] + items)[1..] == items && items == [items[0]] + items[1..];
    } else {
      JoinMerges(prior, items);
    }
  }

  /** What a path holds after one more item. */
  function Held(pm: ProxyMap, path: string): string { if path in pm then pm[path] else "" }

  function Longer(prior: string, item: string): string { if prior == "" then item else prior + "," + item }

  lemma ItemLine(pm: ProxyMap, base: seq<Frame>, col: nat, t: string)
    requires base != [] && base[|base| - 1].indent < col && Tight(t)
    ensures var path := PathAt(base);
      BlockStep(Block(pm, base), Spaces(col) + ("- " + t)) ==
        Good(Block(pm[path := Longer(Held(pm, path), Unquote(t))], base))
  {
    ItemFacts(t, col);
    PopsTo(base, base, col);
  }

  lemma {:induction false} DashesRead(pm: ProxyMap, base: seq<Frame>, col: nat, items: seq<string>)
    requires base != [] && base[|base| - 1].indent < col && forall t :: t in items ==> Tight(t)
    ensures BlockFold(Block(pm, base), Dashes(col, items)) ==
      Good(Block(Enter(pm, Add(PathAt(base), Unquoted(items))), base))
    decreases items
  {
    if items != [] {
      var path := PathAt(base);
      var next := pm[path := Longer(Held(pm, path), Unquote(items[0]))];
      assert items[0] in items;
      forall t | t in items[1..] ensures t in items {}
      ItemLine(pm, base, col, items[0]);
      DashesTail(col, items);
      DashesRead(next, base, col, items[1..]);
      ListGoesOn(pm, path, Unquoted(items));
    }
  }

  lemma DashesTail(col: nat, items: seq<string>)
    requires items != []
    ensures Dashes(col, items)[0] == Spaces(col) + ("- " + items[0])
    ensures Dashes(col, items)[1..] == Dashes(col, items[1..])
    ensures Unquoted(items)[0] == Unquote(items[0]) && Unquoted(items)[1..] == Unquoted(items[1..])
  {}

  lemma ListGoesOn(pm: ProxyMap, path: string, items: seq<string>)
    requires items != []
    ensures Enter(pm, Add(path, items)) ==
      Enter(pm[path := Longer(Held(pm, path), items[0])], Add(path, items[1..]))
  {
    var first := Longer(Held(pm, path), items[0]);
    ItemJoins(Held(pm, path), items);
    if path !in pm { EmptyFirst(items); }
    SingleItem(first);
    if items[1..] == [] { assert [first] + items[1..] == [first]; }
  }

  lemma EmptyFirst(items: seq<string>)
    ensures CommaList([""] + items) == CommaList([] + items)
  {
    assert ([""] + items)[1..] == items && [] + items == items;
  }

  lemma SingleItem(item: string)
    ensures CommaList([item]) == item
  {
    assert [item][1..] == [];
    assert CommaList([]) == "";
  }

  /** One line that leaves exactly `base` open. */
  lemma LeafReads(b: Block, base: seq<Frame>, col: nat, n: Node, fl: FloatTest)
    requires NodeOk(n, fl) && (n.Value? || n.Flow?) && Above(base, b.stack, col)
    ensures BlockFold(b, [Spaces(col) + Opening(n, fl)]) ==
      Good(Block(EnterAll(b.pm, NodeEntries(PathAt(base), n)), base))
  {
    if n.Value? { ValueLine(b, base, col, n, fl); } else { FlowLine(b, base, col, n, fl); }
    assert [Spaces(col) + Opening(n, fl)][1..] == [];
  }

  function Inner(base: seq<Frame>, col: nat, n: Node): seq<Frame> {
    base + [Frame(col, Dotted(PathAt(base), n.key))]
  }

  lemma OpenerFold(b: Block, base: seq<Frame>, col: nat, n: Node, fl: FloatTest, below: seq<string>)
    requires NodeOk(n, fl) && (n.List? || n.Mapping?) && Above(base, b.stack, col)
    ensures BlockFold(b, [Spaces(col) + Opening(n, fl)] + below) ==
      BlockFold(Block(b.pm, Inner(base, col, n)), below)
  {
    OpenerLine(b, base, col, n, fl);
    assert ([Spaces(col) + Opening(n, fl)] + below)[1..] == below;
  }

  lemma OneEntry(pm: ProxyMap, e: Entry)
    ensures EnterAll(pm, [e]) == Enter(pm, e)
  {
    assert [e][1..] == [];
  }

  lemma ListReads(b: Block, base: seq<Frame>, col: nat, n: Node, fl: FloatTest) returns (out: Block)
    requires NodeOk(n, fl) && n.List? && Above(base, b.stack, col)
    ensures BlockFold(b, [Spaces(col) + Opening(n, fl)] + Below(col, n, fl)) == Good(out)
    ensures out.pm == EnterAll(b.pm, NodeEntries(PathAt(base), n)) && Above(base, out.stack, col)
  {
    var inner := Inner(base, col, n);
    OpenerFold(b, base, col, n, fl, Below(col, n, fl));
    DashesRead(b.pm, inner, col + n.shift, n.items);
    out := Block(Enter(b.pm, Add(PathAt(inner), Unquoted(n.items))), inner);
    OneEntry(b.pm, Add(PathAt(inner), Unquoted(n.items)));
    StillAbove(base, inner, inner, col, col + 1);
  }

  lemma {:induction false} MappingReads(b: Block, base: seq<Frame>, col: nat, n: Node, fl: FloatTest)
    returns (out: Block)
    requires NodeOk(n, fl) && n.Mapping? && Above(base, b.stack, col)
    ensures BlockFold(b, [Spaces(col) + Opening(n, fl)] + Below(col, n, fl)) == Good(out)
    ensures out.pm == EnterAll(b.pm, NodeEntries(PathAt(base), n)) && Above(base, out.stack, col)
    decreases n, 0
  {
    var inner := Inner(base, col, n);
    OpenerFold(b, base, col, n, fl, Below(col, n, fl));
    out := NodesRead(Block(b.pm, inner), inner, col + n.shift, n.kids, fl);
    StillAbove(base, inner, out.stack, col, col + n.shift);
  }

  lemma OneLineOnly(line: string, below: seq<string>)
    requires below == []
    ensures [line] + below == [line]
  {}

  /** One node, read at its column: its entries are added, and what it leaves open is at its column or deeper. */
  lemma {:induction false} NodeReads(b: Block, base: seq<Frame>, col: nat, n: Node, fl: FloatTest) returns (out: Block)
    requires NodeOk(n, fl) && Above(base, b.stack, col)
    ensures BlockFold(b, [Spaces(col) + Opening(n, fl)] + Below(col, n, fl)) == Good(out)
    ensures out.pm == EnterAll(b.pm, NodeEntries(PathAt(base), n)) && Above(base, out.stack, col)
    decreases n, 1
  {
    if n.List? {
      out := ListReads(b, base, col, n, fl);
    } else if n.Mapping? {
      out := MappingReads(b, base, col, n, fl);
    } else {
      LeafReads(b, base, col, n, fl);
      OneLineOnly(Spaces(col) + Opening(n, fl), Below(col, n, fl));
      out := Block(EnterAll(b.pm, NodeEntries(PathAt(base), n)), base);
    }
  }

  lemma StillAbove(base: seq<Frame>, inner: seq<Frame>, stack: seq<Frame>, col: nat, deeper: nat)
    requires base != [] ==> base[|base| - 1].indent < col
    requires col < deeper && |inner| == |base| + 1 && base <= inner && inner[|base|].indent == col
    requires Above(inner, stack, deeper)
    ensures Above(base, stack, col)
  {
    forall f | f in stack[|base|..] ensures f.indent >= col {
      var i :| 0 <= i < |stack| - |base| && stack[|base|..][i] == f;
      if i > 0 { assert stack[|inner|..][i - 1] == f; }
    }
  }

  /** A whole mapping. */
  lemma {:induction false} NodesRead(b: Block, base: seq<Frame>, col: nat, ns: seq<Node>, fl: FloatTest)
    returns (out: Block)
    requires NodesOk(ns, fl) && Above(base, b.stack, col)
    ensures BlockFold(b, TreeLines(col, ns, fl)) == Good(out)
    ensures out.pm == EnterAll(b.pm, Entries(PathAt(base), ns)) && Above(base, out.stack, col)
    decreases ns, 0
  {
    if ns == [] {
      out := b;
    } else {
      var first := [Spaces(col) + Opening(ns[0], fl)] + Below(col, ns[0], fl);
      var mid := NodeReads(b, base, col, ns[0], fl);
      out := NodesRead(mid, base, col, ns[1..], fl);
      BlockFoldConcat(b, first, TreeLines(col, ns[1..], fl));
      EnterConcat(b.pm, NodeEntries(PathAt(base), ns[0]), Entries(PathAt(base), ns[1..]));
    }
  }

  // ---- comments after a value ----

  /** A comment behind a complete value, after any blanks, changes nothing. */
  lemma NoteChangesNothing(b: Block, col: nat, k: string, t: string, pad: string, note: string)
    requires KeyOk(k) && Legible(t) && Run(TOP, t) == TOP && pad != [] && forall c :: c in pad ==> Yaml.Blank(c)
    requires note == [] || !IsSpace(note[|note| - 1])
    ensures BlockStep(b, Spaces(col) + (k + ": " + (t + pad + ("#" + note)))) ==
      BlockStep(b, Spaces(col) + (k + ": " + t))
  {
    NotedSplits(k, t, pad, note);
    LineFacts(k, t, col);
    NotedLine(k, t + pad + ("#" + note), col);
    SameStep(b, Spaces(col) + (k + ": " + (t + pad + ("#" + note))), Spaces(col) + (k + ": " + t));
  }

  lemma SameStep(b: Block, x: string, y: string)
    requires IndentOf(x) == IndentOf(y) && SplitKV(TrimSpace(x)) == SplitKV(TrimSpace(y))
    requires !Skipped(TrimSpace(x)) && !Skipped(TrimSpace(y)) && !IsSeqItem(TrimSpace(x)) && !IsSeqItem(TrimSpace(y))
    ensures BlockStep(b, x) == BlockStep(b, y)
  {}

  lemma NotedSplits(k: string, t: string, pad: string, note: string)
    requires KeyOk(k) && Legible(t) && Run(TOP, t) == TOP && pad != [] && forall c :: c in pad ==> Yaml.Blank(c)
    requires note == [] || !IsSpace(note[|note| - 1])
    ensures var v := t + pad + ("#" + note); Tight(v) && SplitKV(k + ": " + v) == KV(k, t)
  {
    var v := t + pad + ("#" + note);
    var s := k + ": " + v;
    assert v[0] == t[0] && v[|v| - 1] == (if note == [] then '#' else note[|note| - 1]);
    assert s == (k + ": ") + v && s[..|k|] == k && s[|k| + 1..] == " " + v;
    PlainKey(k);
    ColonSame(k + ": ", v, 0, |k|, TOP);
    UnquoteTrimmed(k);
    TrimTight(v);
    TrimTight(t);
    QuietAnyStart(t);
    TrailingCommentGoes(t, pad, note);
  }

  lemma NotedLine(k: string, v: string, n: nat)
    requires KeyOk(k) && Tight(v)
    ensures var s := k + ": " + v;
      TrimSpace(Spaces(n) + s) == s && IndentOf(Spaces(n) + s) == n && !Skipped(s) && !IsSeqItem(s)
  {
    var s := k + ": " + v;
    KeyFacts(k);
    assert k[0] in k && s[0] == k[0] && s[|s| - 1] == v[|v| - 1] && Tight(s);
    TrimPadded(n, s);
    IndentPadded(n, s);
  }

  /** A proxy's map. */
  function Meaning(ns: seq<Node>): ProxyMap { EnterAll(map[], Entries("", ns)) }

  /** The round trip: a tree written in block style at any column reads back as its leaves. */
  lemma TreeReads(ns: seq<Node>, col: nat, fl: FloatTest)
    requires NodesOk(ns, fl)
    ensures ParseBlock(TreeLines(col, ns, fl)) == Good(Meaning(ns))
  {
    var _ := NodesRead(Block(map[], []), [], col, ns, fl);
  }
}
