/**
 A whole subscription in block style: any lines before the `proxies:` key, the proxies as a
 dashed list at one column, blank and comment lines anywhere, and the next key after them.
 The reader returns every proxy when the dashes are indented, and none when they are not.
 */
module ClashSubscription {
  import opened Yaml
  import opened ClashParser
  import opened ClashPrinter
  import opened ClashRoundTrip
  import opened ClashBlocks
  import ClashDocument
  import opened Sequences

  /** One proxy: a tree in block style, or a flow map on its own line. */
  datatype Proxy = Tree(nodes: seq<Node>) | OneLine(parts: seq<Part>)

  /** Its lines; what comes first follows the dash. */
  function ProxyLines(dash: nat, x: Proxy, fl: FloatTest): seq<string> {
    match x
    case Tree(ns) =>
      if ns == [] then []
      else [Spaces(dash) + ("- " + Opening(ns[0], fl))] + TreeLines(dash + 2, ns, fl)[1..]
    case OneLine(parts) => [Spaces(dash) + ("- " + MapText(parts, fl))]
  }

  function ListLines(dash: nat, ps: seq<Proxy>, fl: FloatTest): seq<string> {
    if ps == [] then [] else ListLines(dash, ps[..|ps| - 1], fl) + ProxyLines(dash, ps[|ps| - 1], fl)
  }

  function ProxyMeaning(x: Proxy): ProxyMap {
    match x
    case Tree(ns) => Meaning(ns)
    case OneLine(parts) => InsertAll(map[], PartEntries("", parts))
  }

  function Meanings(ps: seq<Proxy>): seq<ProxyMap> {
    seq(|ps|, i requires 0 <= i < |ps| => ProxyMeaning(ps[i]))
  }

  ghost predicate ProxyOk(x: Proxy, fl: FloatTest) {
    match x
    case Tree(ns) => ns != [] && NodesOk(ns, fl)
    case OneLine(parts) => parts != [] && (forall q :: q in parts ==> PartOk(q)) && Legible(MapText(parts, fl))
  }

  /** The lines that are neither blank nor a comment. */
  function Kept(ls: seq<string>): seq<string> {
    if ls == [] then [] else (if Skipped(TrimSpace(ls[0])) then [] else [ls[0]]) + Kept(ls[1..])
  }

  lemma ReadCons(ln: string, more: seq<string>, r: Reader)
    ensures ReadFrom([ln] + more, r) ==
      match ReadLine(r, ln) case Halt => Flush(r) case Fault => Bad case Go(next) => ReadFrom(more, next)
  {
    assert ([ln] + more)[1..] == more;
  }

  lemma {:induction false} NotesIgnored(ls: seq<string>, more: seq<string>, r: Reader)
    ensures ReadFrom(ls + more, r) == ReadFrom(Kept(ls) + more, r)
    decreases ls
  {
    if ls == [] {
      assert ls + more == more && Kept(ls) + more == more;
    } else {
      ReadCons(ls[0], ls[1..] + more, r);
      HeadMoves([], ls, more);
      if Skipped(TrimSpace(ls[0])) {
        NotesIgnored(ls[1..], more, r);
        assert Kept(ls) == Kept(ls[1..]);
      } else {
        ReadCons(ls[0], Kept(ls[1..]) + more, r);
        Concat3([ls[0]], Kept(ls[1..]), more);
        if ReadLine(r, ls[0]).Go? { NotesIgnored(ls[1..], more, ReadLine(r, ls[0]).next); }
      }
    }
  }

  // ---- lines inside a proxy ----

  /** The line stays with the open proxy: indented, and no dash at the list's own column. */
  predicate Stays(l: string, dash: nat) {
    !Skipped(TrimSpace(l)) && IndentOf(l) > 0 && (IsSeqItem(TrimSpace(l)) ==> IndexOf(l, '-') > dash)
  }

  lemma {:induction false} DashAt(n: nat, s: string)
    requires s != [] && s[0] == '-'
    ensures IndexOf(Spaces(n) + s, '-') == n
  {
    if n == 0 {
      assert Spaces(0) + s == s;
    } else {
      assert (Spaces(n) + s)[1..] == Spaces(n - 1) + s && (Spaces(n) + s)[0] == ' ';
      DashAt(n - 1, s);
    }
  }

  lemma OpeningFacts(n: Node, fl: FloatTest, col: nat)
    requires NodeOk(n, fl)
    ensures var s := Opening(n, fl);
      && Legible(s) && !("{" <= s) && TrimSpace(Spaces(col) + s) == s && IndentOf(Spaces(col) + s) == col
      && !Skipped(s) && !IsSeqItem(s)
  {
    match n
    case Value(key, text) =>
      LineFacts(key, text, col);
      PairLegible(key, text);
    case Flow(key, parts) =>
      LineFacts(key, MapText(parts, fl), col);
      PairLegible(key, MapText(parts, fl));
    case _ =>
      OpenerText(n.key);
      OpenerFacts(n.key, col);
  }

  lemma ItemStays(col: nat, t: string, dash: nat)
    requires Tight(t) && col > dash
    ensures Stays(Spaces(col) + ("- " + t), dash)
  {
    ItemFacts(t, col);
    DashAt(col, "- " + t);
  }

  lemma DashesStay(col: nat, items: seq<string>, dash: nat)
    requires col > dash && forall t :: t in items ==> Tight(t)
    ensures forall l :: l in Dashes(col, items) ==> Stays(l, dash)
  {
    forall l | l in Dashes(col, items) ensures Stays(l, dash) {
      var i :| 0 <= i < |items| && Dashes(col, items)[i] == l;
      assert items[i] in items;
      ItemStays(col, items[i], dash);
    }
  }

  lemma {:induction false} NestedStay(col: nat, n: Node, fl: FloatTest, dash: nat)
    requires NodeOk(n, fl) && col > dash
    ensures forall l :: l in Below(col, n, fl) ==> Stays(l, dash)
    decreases n, 0
  {
    match n
    case List(_, shift, items) => DashesStay(col + shift, items, dash);
    case Mapping(_, shift, kids) => LinesStay(col + shift, kids, fl, dash);
    case _ =>
  }

  lemma {:induction false} LinesStay(col: nat, ns: seq<Node>, fl: FloatTest, dash: nat)
    requires NodesOk(ns, fl) && col > dash
    ensures forall l :: l in TreeLines(col, ns, fl) ==> Stays(l, dash)
    decreases ns, 0
  {
    if ns != [] {
      OpeningFacts(ns[0], fl, col);
      NestedStay(col, ns[0], fl, dash);
      LinesStay(col, ns[1..], fl, dash);
      var first := Spaces(col) + Opening(ns[0], fl);
      forall l | l in TreeLines(col, ns, fl) ensures Stays(l, dash) {
        assert l == first || l in Below(col, ns[0], fl) || l in TreeLines(col, ns[1..], fl);
      }
    }
  }

  lemma {:induction false} RestStays(ls: seq<string>, more: seq<string>, r: Reader)
    requires r.dash >= 0 && forall l :: l in ls ==> Stays(l, r.dash)
    ensures ReadFrom(ls + more, r) == ReadFrom(more, r.(cur := r.cur + ls))
    decreases ls
  {
    if ls == [] {
      assert ls + more == more && r.cur + ls == r.cur;
    } else {
      var next := r.(cur := r.cur + [ls[0]]);
      assert ls[0] in ls && Stays(ls[0], r.dash);
      forall l | l in ls[1..] ensures l in ls {}
      HeadMoves(r.cur, ls, more);
      assert ReadLine(r, ls[0]) == Go(next);
      assert (ls + more)[1..] == ls[1..] + more;
      RestStays(ls[1..], more, next);
    }
  }

  // ---- the dash ----

  lemma DashFacts(dash: nat, b: string)
    requires Legible(b)
    ensures var ln := Spaces(dash) + ("- " + b);
      && TrimSpace(ln) == "- " + b && IndentOf(ln) == dash && IndexOf(ln, '-') == dash < |ln|
      && ln[dash + 1..] == " " + b && IsSeqItem("- " + b) && !Skipped("- " + b)
  {
    ItemFacts(b, dash);
    DashAt(dash, "- " + b);
    BehindDash(dash, b);
  }

  lemma BehindDash(dash: nat, b: string)
    ensures var ln := Spaces(dash) + ("- " + b); dash < |ln| && ln[dash + 1..] == " " + b
  {
    SpacesLength(dash);
  }

  lemma {:induction false} SpacesLength(n: nat)
    ensures |Spaces(n)| == n
  {
    if n > 0 { SpacesLength(n - 1); }
  }

  lemma ItemOpens(b: string)
    requires Legible(b)
    ensures TrimSpace(StripInlineComment(TrimSpace(" " + b))) == b
  {
    QuietAnyStart(b);
    ValueKept(b);
  }

  lemma DashOpens(dash: nat, b: string, r: Reader)
    requires Legible(b) && !("{" <= b) && dash > 0 && Flush(r).Good? && (r.dash < 0 || r.dash == dash)
    ensures ReadLine(r, Spaces(dash) + ("- " + b)) == Go(Reader(Flush(r).value, [Spaces(dash + 2) + b], dash))
  {
    DashFacts(dash, b);
    ItemOpens(b);
  }

  /** The reader once it has taken a proxy's lines: a tree stays open, a flow map is done. */
  function Begun(out: seq<ProxyMap>, x: Proxy, dash: nat, fl: FloatTest): Reader {
    match x
    case Tree(ns) => Reader(out, TreeLines(dash + 2, ns, fl), dash)
    case OneLine(parts) => Reader(out + [ProxyMeaning(x)], [], dash)
  }

  /** One proxy's lines close the open proxy and begin this one. */
  lemma ProxyRead(dash: nat, x: Proxy, more: seq<string>, r: Reader, fl: FloatTest)
    requires dash > 0 && ProxyOk(x, fl) && Flush(r).Good? && (r.dash < 0 || r.dash == dash)
    ensures ReadFrom(ProxyLines(dash, x, fl) + more, r) == ReadFrom(more, Begun(Flush(r).value, x, dash, fl))
  {
    match x
    case Tree(ns) => TreeRead(dash, ns, more, r, fl);
    case OneLine(parts) =>
      FlowOpens(dash, parts, r, fl);
      ReadCons(Spaces(dash) + ("- " + MapText(parts, fl)), more, r);
  }

  lemma FlowOpens(dash: nat, parts: seq<Part>, r: Reader, fl: FloatTest)
    requires dash > 0 && ProxyOk(OneLine(parts), fl) && Flush(r).Good? && (r.dash < 0 || r.dash == dash)
    ensures ReadLine(r, Spaces(dash) + ("- " + MapText(parts, fl))) ==
      Go(Reader(Flush(r).value + [ProxyMeaning(OneLine(parts))], [], dash))
  {
    var b := MapText(parts, fl);
    DashFacts(dash, b);
    ItemOpens(b);
    FlowReads(parts, "", map[], fl);
  }

  lemma TreeRead(dash: nat, ns: seq<Node>, more: seq<string>, r: Reader, fl: FloatTest)
    requires dash > 0 && ns != [] && NodesOk(ns, fl) && Flush(r).Good? && (r.dash < 0 || r.dash == dash)
    ensures ReadFrom(ProxyLines(dash, Tree(ns), fl) + more, r) ==
      ReadFrom(more, Reader(Flush(r).value, TreeLines(dash + 2, ns, fl), dash))
  {
    var b, all := Opening(ns[0], fl), TreeLines(dash + 2, ns, fl);
    var begun := Reader(Flush(r).value, [Spaces(dash + 2) + b], dash);
    OpeningFacts(ns[0], fl, dash + 2);
    DashOpens(dash, b, r);
    LinesStay(dash + 2, ns, fl, dash);
    forall l | l in all[1..] ensures l in all {}
    RestStays(all[1..], more, begun);
    FirstOfLines(dash + 2, ns, fl);
    ReadCons(Spaces(dash) + ("- " + b), all[1..] + more, r);
    Concat3([Spaces(dash) + ("- " + b)], all[1..], more);
  }

  lemma FirstOfLines(col: nat, ns: seq<Node>, fl: FloatTest)
    requires ns != []
    ensures TreeLines(col, ns, fl) == [Spaces(col) + Opening(ns[0], fl)] + TreeLines(col, ns, fl)[1..]
  {}

  // ---- the list ----

  const START := Reader([], [], -1)

  ghost predicate ListOk(ps: seq<Proxy>, fl: FloatTest) { forall x :: x in ps ==> ProxyOk(x, fl) }

  function After(dash: nat, ps: seq<Proxy>, fl: FloatTest): Reader {
    if ps == [] then START else Begun(Meanings(ps[..|ps| - 1]), ps[|ps| - 1], dash, fl)
  }

  lemma FlushAfter(dash: nat, ps: seq<Proxy>, fl: FloatTest)
    requires ListOk(ps, fl)
    ensures Flush(After(dash, ps, fl)) == Good(Meanings(ps))
  {
    if ps == [] {
      assert Meanings(ps) == [];
    } else {
      var n := |ps| - 1;
      assert ps[n] in ps;
      assert Meanings(ps) == Meanings(ps[..n]) + [ProxyMeaning(ps[n])];
      if ps[n].Tree? {
        TreeReads(ps[n].nodes, dash + 2, fl);
        FirstOfLines(dash + 2, ps[n].nodes, fl);
      }
    }
  }

  lemma ListOkInit(ps: seq<Proxy>, fl: FloatTest)
    requires ps != [] && ListOk(ps, fl)
    ensures ListOk(ps[..|ps| - 1], fl) && ProxyOk(ps[|ps| - 1], fl)
  {
    assert ps[|ps| - 1] in ps;
    forall x | x in ps[..|ps| - 1] ensures x in ps {}
  }

  lemma {:induction false} ListRead(dash: nat, ps: seq<Proxy>, more: seq<string>, fl: FloatTest)
    requires dash > 0 && ListOk(ps, fl)
    ensures ReadFrom(ListLines(dash, ps, fl) + more, START) == ReadFrom(more, After(dash, ps, fl))
  {
    if ps == [] {
      assert ListLines(dash, ps, fl) + more == more;
    } else {
      var n := |ps| - 1;
      ListOkInit(ps, fl);
      var last := ProxyLines(dash, ps[n], fl);
      ListRead(dash, ps[..n], last + more, fl);
      FlushAfter(dash, ps[..n], fl);
      ProxyRead(dash, ps[n], more, After(dash, ps[..n], fl), fl);
      Concat3(ListLines(dash, ps[..n], fl), last, more);
    }
  }

  /** With the dashes at the margin the first line already ends the section. */
  lemma {:induction false} FlushLeftEnds(ps: seq<Proxy>, fl: FloatTest)
    requires ps != [] && ListOk(ps, fl)
    ensures var ls := ListLines(0, ps, fl); ls != [] && ReadLine(START, ls[0]) == Halt
  {
    ListOkInit(ps, fl);
    if |ps| > 1 {
      FlushLeftEnds(ps[..|ps| - 1], fl);
    } else {
      assert ListLines(0, ps[..0], fl) == [];
      FirstAtMargin(ps[0], fl);
    }
  }

  lemma FirstAtMargin(x: Proxy, fl: FloatTest)
    requires ProxyOk(x, fl)
    ensures var ls := ProxyLines(0, x, fl); ls != [] && ReadLine(START, ls[0]) == Halt
  {
    match x
    case Tree(ns) =>
      OpeningFacts(ns[0], fl, 0);
      DashFacts(0, Opening(ns[0], fl));
    case OneLine(parts) => DashFacts(0, MapText(parts, fl));
  }

  // ---- the document ----

  /** The line is the top-level `proxies:` key. */
  predicate OpensSection(l: string) { !Skipped(TrimSpace(l)) && IndentOf(l) == 0 && "proxies:" <= TrimSpace(l) }

  /** It has no list on its own line. */
  predicate BareKey(l: string) { OpensSection(l) && !("[" <= TrimSpace(TrimSpace(l)[8..])) }

  lemma {:induction false} HeadPassed(head: seq<string>, rest: seq<string>)
    requires forall l :: l in head ==> !OpensSection(l)
    ensures FindProxies(head + rest) == FindProxies(rest)
    decreases head
  {
    if head == [] {
      assert head + rest == rest;
    } else {
      assert head[0] in head && (head + rest)[0] == head[0] && (head + rest)[1..] == head[1..] + rest;
      forall l | l in head[1..] ensures l in head {}
      HeadPassed(head[1..], rest);
    }
  }

  lemma SectionFound(head: seq<string>, key: string, more: seq<string>)
    requires BareKey(key) && forall l :: l in head ==> !OpensSection(l)
    ensures FindProxies(head + ([key] + more)) == ClashParser.Lines(more)
  {
    HeadPassed(head, [key] + more);
    assert ([key] + more)[0] == key && ([key] + more)[1..] == more;
  }

  /** Nothing, or the next top-level key. */
  predicate EndsSection(tail: seq<string>) {
    tail == [] || (!Skipped(TrimSpace(tail[0])) && IndentOf(tail[0]) == 0)
  }

  lemma SectionEnds(tail: seq<string>, r: Reader)
    requires EndsSection(tail)
    ensures ReadFrom(tail, r) == Flush(r)
  {}

  /** The lines of a subscription: the proxies at column `dash`, with blank and comment lines anywhere. */
  ghost predicate Subscribes(text: string, head: seq<string>, key: string, body: seq<string>, tail: seq<string>,
        dash: nat, ps: seq<Proxy>, fl: FloatTest)
  {
    && LinesFrom(text, []) == head + ([key] + (body + tail))
    && BareKey(key) && (forall l :: l in head ==> !OpensSection(l)) && EndsSection(tail)
    && ListOk(ps, fl) && Kept(body) == ListLines(dash, ps, fl)
  }

  /**
   A subscription reads back as the flat map of every proxy, in order, when its dashes are
   indented. A list whose dashes stand at the margin, which YAML allows (section 8.2.3 of
   YAML 1.2.2), reads as no proxy at all.
   */
  lemma SubscriptionReads(text: string, head: seq<string>, key: string, body: seq<string>, tail: seq<string>,
        dash: nat, ps: seq<Proxy>, fl: FloatTest)
    requires Subscribes(text, head, key, body, tail, dash, ps, fl)
    ensures Extract(text) == Good(if dash > 0 then Meanings(ps) else [])
    ensures Extract(text) == Good(Meanings(ps)) <==> dash > 0 || ps == []
  {
    SectionFound(head, key, body + tail);
    NotesIgnored(body, tail, START);
    if dash > 0 {
      ListRead(dash, ps, tail, fl);
      SectionEnds(tail, After(dash, ps, fl));
      FlushAfter(dash, ps, fl);
    } else if ps == [] {
      assert ListLines(0, ps, fl) + tail == tail;
      SectionEnds(tail, START);
    } else {
      FlushLeftEnds(ps, fl);
      assert (ListLines(0, ps, fl) + tail)[0] == ListLines(0, ps, fl)[0];
    }
    if ps == [] { assert Meanings(ps) == []; }
  }

  // ---- a list on the key's own line ----

  /** Flow maps that close what they open. */
  ghost predicate MapsOk(ms: seq<seq<Part>>) {
    forall parts :: parts in ms ==> parts != [] && forall q :: q in parts ==> PartOk(q) && MapKey(q.pair.key)
  }

  function MapTexts(ms: seq<seq<Part>>, fl: FloatTest): seq<string> {
    seq(|ms|, i requires 0 <= i < |ms| => MapText(ms[i], fl))
  }

  function MapMeanings(ms: seq<seq<Part>>): seq<ProxyMap> {
    seq(|ms|, i requires 0 <= i < |ms| => InsertAll(map[], PartEntries("", ms[i])))
  }

  lemma MapPiece(parts: seq<Part>, fl: FloatTest)
    requires parts != [] && forall q :: q in parts ==> PartOk(q) && MapKey(q.pair.key)
    ensures Piece(MapText(parts, fl)) && "{" <= MapText(parts, fl)
    ensures ParseFlow(MapText(parts, fl)) == Good(InsertAll(map[], PartEntries("", parts)))
  {
    PartsWhole(parts, fl);
    JoinSteady(PartTexts(parts, fl));
    BracedReadable(JoinParts(parts, fl));
    WholeIsPiece(MapText(parts, fl));
    FlowReads(parts, "", map[], fl);
  }

  lemma {:induction false} ItemsRead(pieces: seq<string>, ms: seq<seq<Part>>, fl: FloatTest)
    requires |pieces| == |ms| && MapsOk(ms) && forall i :: 0 <= i < |ms| ==> TrimSpace(pieces[i]) == MapText(ms[i], fl)
    ensures SeqItems(pieces) == Good(MapMeanings(ms))
    decreases ms
  {
    if ms == [] {
      assert MapMeanings(ms) == [];
    } else {
      assert ms[0] in ms;
      forall parts | parts in ms[1..] ensures parts in ms {}
      MapPiece(ms[0], fl);
      ItemsRead(pieces[1..], ms[1..], fl);
      ItemRead(pieces, MapText(ms[0], fl), InsertAll(map[], PartEntries("", ms[0])), MapMeanings(ms[1..]));
      MapMeaningsCons(ms);
    }
  }

  lemma MapMeaningsCons(ms: seq<seq<Part>>)
    requires ms != []
    ensures MapMeanings(ms) == [InsertAll(map[], PartEntries("", ms[0]))] + MapMeanings(ms[1..])
  {}

  lemma ItemRead(pieces: seq<string>, f: string, pm: ProxyMap, rest: seq<ProxyMap>)
    requires pieces != [] && TrimSpace(pieces[0]) == f && "{" <= f && ParseFlow(f) == Good(pm)
    requires SeqItems(pieces[1..]) == Good(rest)
    ensures SeqItems(pieces) == Good([pm] + rest)
  {}

  lemma MapTextsPieces(ms: seq<seq<Part>>, fl: FloatTest)
    requires MapsOk(ms)
    ensures forall u :: u in MapTexts(ms, fl) ==> Piece(u)
  {
    var ts := MapTexts(ms, fl);
    forall u | u in ts ensures Piece(u) {
      var i :| 0 <= i < |ts| && ts[i] == u;
      assert ms[i] in ms;
      MapPiece(ms[i], fl);
    }
  }

  /** The pieces between the brackets, trimmed, are the maps. */
  lemma MapTextsSplit(ms: seq<seq<Part>>, fl: FloatTest)
    requires ms != [] && MapsOk(ms)
    ensures var pieces := SplitTopLevel(Join(MapTexts(ms, fl)));
      |pieces| == |ms| && forall i :: 0 <= i < |ms| ==> TrimSpace(pieces[i]) == MapText(ms[i], fl)
  {
    var ts := MapTexts(ms, fl);
    MapTextsPieces(ms, fl);
    JoinPieces(ts);
    forall i | 0 <= i < |ms| ensures TrimSpace(SplitTopLevel(Join(ts))[i]) == MapText(ms[i], fl) {
      assert ts[i] in ts;
      SpacedPiece(ts, i);
    }
  }

  lemma BracketedItems(inner: string)
    ensures ParseInlineSeq("[" + inner + "]") == SeqItems(SplitTopLevel(inner))
  {
    var t := "[" + inner + "]";
    TrimTight(t);
    assert t[1..|t| - 1] == inner;
  }

  /** A list of flow maps in brackets reads back as the map of each. */
  lemma InlineListReads(ms: seq<seq<Part>>, fl: FloatTest)
    requires ms != [] && MapsOk(ms)
    ensures ParseInlineSeq("[" + Join(MapTexts(ms, fl)) + "]") == Good(MapMeanings(ms))
  {
    MapTextsSplit(ms, fl);
    BracketedItems(Join(MapTexts(ms, fl)));
    ItemsRead(SplitTopLevel(Join(MapTexts(ms, fl))), ms, fl);
  }

  /** And so does a document that has it on the line of the key. */
  lemma InlineSubscriptionReads(text: string, head: seq<string>, ms: seq<seq<Part>>, more: seq<string>, fl: FloatTest)
    requires ms != [] && MapsOk(ms) && forall l :: l in head ==> !OpensSection(l)
    requires LinesFrom(text, []) == head + (["proxies: " + ("[" + Join(MapTexts(ms, fl)) + "]")] + more)
    ensures Extract(text) == Good(MapMeanings(ms))
  {
    var value := "[" + Join(MapTexts(ms, fl)) + "]";
    HeadPassed(head, ["proxies: " + value] + more);
    ClashDocument.InlineKey("proxies: " + value, value, more);
    InlineListReads(ms, fl);
  }

  // ---- a proxy as subscriptions write it ----

  const DEEP := [Value("Host", "h")]
  const WS_OPTS := [Value("path", "/x"), Mapping("headers", 2, DEEP)]
  const WS := [Value("name", "a"), Mapping("ws-opts", 2, WS_OPTS), List("alpn", 2, ["h3", "h2"])]

  lemma PlainText(t: string)
    requires Tight(t) && t[0] != '"' && t[0] != '\''
    ensures Unquote(t) == t
  {
    TrimTight(t);
  }

  lemma WsTexts()
    ensures Unquote("a") == "a" && Unquoted(["h3", "h2"]) == ["h3", "h2"]
  {
    PlainText("a");
    PlainText("h3");
    PlainText("h2");
  }

  lemma EntriesCons(path: string, n: Node, ns: seq<Node>)
    ensures Entries(path, [n] + ns) == NodeEntries(path, n) + Entries(path, ns)
  {
    assert ([n] + ns)[1..] == ns;
  }

  lemma DeepEntries()
    ensures Entries("ws-opts.headers", DEEP) == [Put("ws-opts.headers.Host", "h")]
  {
    PlainText("h");
    EntriesCons("ws-opts.headers", DEEP[0], []);
    assert DEEP == [DEEP[0]] + [];
    assert "ws-opts.headers" + "." + "Host" == "ws-opts.headers.Host";
  }

  lemma HeadersEntries()
    ensures NodeEntries("ws-opts", WS_OPTS[1]) == [Put("ws-opts.headers.Host", "h")]
  {
    DeepEntries();
    assert "ws-opts" + "." + "headers" == "ws-opts.headers";
  }

  lemma OptsEntries()
    ensures Entries("ws-opts", WS_OPTS) == [Put("ws-opts.path", "/x"), Put("ws-opts.headers.Host", "h")]
  {
    PlainText("/x");
    HeadersEntries();
    EntriesCons("ws-opts", WS_OPTS[0], [WS_OPTS[1]]);
    EntriesCons("ws-opts", WS_OPTS[1], []);
    assert WS_OPTS == [WS_OPTS[0]] + [WS_OPTS[1]];
    assert [WS_OPTS[1]] == [WS_OPTS[1]] + [];
    assert "ws-opts" + "." + "path" == "ws-opts.path";
  }

  lemma WsEntries()
    ensures Entries("", WS) == [
      Put("name", "a"), Put("ws-opts.path", "/x"), Put("ws-opts.headers.Host", "h"), Add("alpn", ["h3", "h2"])]
  {
    WsTexts();
    OptsEntries();
    EntriesCons("", WS[0], [WS[1], WS[2]]);
    EntriesCons("", WS[1], [WS[2]]);
    EntriesCons("", WS[2], []);
    assert WS == [WS[0]] + [WS[1], WS[2]] && [WS[1], WS[2]] == [WS[1]] + [WS[2]] && [WS[2]] == [WS[2]] + [];
  }

  /** Two levels of nesting and a list: `ws-opts:` with `path:` and `headers:`, `Host:` below that, and `alpn:`. */
  lemma WsMeaning()
    ensures Meaning(WS) == map[
      "name" := "a", "ws-opts.path" := "/x", "ws-opts.headers.Host" := "h", "alpn" := "h3,h2"]
  {
    WsEntries();
    var es := Entries("", WS);
    assert es == [es[0]] + ([es[1]] + ([es[2]] + [es[3]]));
    EnterConcat(map[], [es[0]], [es[1]] + ([es[2]] + [es[3]]));
    EnterConcat(Enter(map[], es[0]), [es[1]], [es[2]] + [es[3]]);
    EnterConcat(Enter(Enter(map[], es[0]), es[1]), [es[2]], [es[3]]);
    OneEntry(map[], es[0]);
    OneEntry(Enter(map[], es[0]), es[1]);
    OneEntry(Enter(Enter(map[], es[0]), es[1]), es[2]);
    OneEntry(Enter(Enter(Enter(map[], es[0]), es[1]), es[2]), es[3]);
    TwoItems("h3", "h2");
    assert "h3" + "," + "h2" == "h3,h2";
  }

  lemma TwoItems(a: string, b: string)
    requires a != ""
    ensures CommaList([] + [a, b]) == a + "," + b
  {
    assert [] + [a, b] == [a, b] && [a, b][1..] == [b];
    assert JoinCommas([b]) == b;
  }
}
