/**
 The whole exported document, read back: the lines the exporter writes around and between the
 proxy blocks, and the reader's walk over them.
 */
module ClashDocument {
  import opened Yaml
  import opened ClashPrinter
  import opened ClashParser
  import opened ClashRoundTrip
  import opened Sequences

  /** Text lines, each ended by a newline. */
  function Unlines(ls: seq<string>): string {
    if ls == [] then "" else Unlines(ls[..|ls| - 1]) + (ls[|ls| - 1] + "\n")
  }

  predicate OneLiners(ls: seq<string>) { forall l :: l in ls ==> '\n' !in l }

  lemma {:induction false} LineTaken(l: string, s: string, cur: string)
    requires '\n' !in l
    ensures LinesFrom(l + "\n" + s, cur) == [cur + l] + LinesFrom(s, "")
  {
    var t := l + "\n" + s;
    if l == [] {
      assert t[1..] == s && cur + l == cur;
    } else {
      assert l[0] in l;
      assert t[1..] == l[1..] + "\n" + s;
      forall c | c in l[1..] ensures c in l {}
      LineTaken(l[1..], s, cur + [l[0]]);
      assert cur + [l[0]] + l[1..] == cur + l;
    }
  }

  lemma {:induction false} LinesBack(ls: seq<string>, tail: string)
    requires OneLiners(ls)
    ensures LinesFrom(Unlines(ls) + tail, "") == ls + LinesFrom(tail, "")
  {
    if ls == [] {
      assert Unlines(ls) + tail == tail;
    } else {
      var n := |ls| - 1;
      assert ls[n] in ls;
      forall l | l in ls[..n] ensures l in ls {}
      LinesBack(ls[..n], ls[n] + "\n" + tail);
      LineTaken(ls[n], tail, "");
      assert Unlines(ls) + tail == Unlines(ls[..n]) + (ls[n] + "\n" + tail);
      assert "" + ls[n] == ls[n];
      assert ls == ls[..n] + [ls[n]];
    }
  }

  lemma {:induction false} UnlinesConcat(a: seq<string>, b: seq<string>)
    ensures Unlines(a + b) == Unlines(a) + Unlines(b)
  {
    if b == [] {
      assert a + b == a;
    } else {
      var n := |b| - 1;
      assert (a + b)[..|a + b| - 1] == a + b[..n];
      UnlinesConcat(a, b[..n]);
    }
  }

  /** The printed lines of one block. */
  function BlockLines(its: seq<Item>, fl: FloatTest): seq<string> {
    seq(|its|, i requires 0 <= i < |its| => ItemLine(its[i], i == 0, fl))
  }

  lemma {:induction false} RenderIsLines(its: seq<Item>, fl: FloatTest)
    ensures RenderItems(its, fl) == Unlines(BlockLines(its, fl))
  {
    if its != [] {
      var n := |its| - 1;
      RenderIsLines(its[..n], fl);
      assert BlockLines(its, fl)[..n] == BlockLines(its[..n], fl);
    }
  }

  function BlocksText(bs: seq<seq<Field>>, fl: FloatTest): string {
    if bs == [] then "" else BlocksText(bs[..|bs| - 1], fl) + RenderItems(BlockItems(bs[|bs| - 1], fl), fl)
  }

  function BlocksLines(bs: seq<seq<Field>>, fl: FloatTest): seq<string> {
    if bs == [] then [] else BlocksLines(bs[..|bs| - 1], fl) + BlockLines(BlockItems(bs[|bs| - 1], fl), fl)
  }

  lemma {:induction false} TextIsLines(bs: seq<seq<Field>>, fl: FloatTest)
    ensures BlocksText(bs, fl) == Unlines(BlocksLines(bs, fl))
  {
    if bs != [] {
      var n := |bs| - 1;
      TextIsLines(bs[..n], fl);
      RenderIsLines(BlockItems(bs[n], fl), fl);
      UnlinesConcat(BlocksLines(bs[..n], fl), BlockLines(BlockItems(bs[n], fl), fl));
    }
  }

  const TITLE := "# Velinx clash-meta subscription"
  const PORT := "mixed-port: 7890"
  const MODE := "mode: rule"

  function Preamble(): string { (TITLE + "\n") + (PORT + "\n") + (MODE + "\n") }

  function SectionKey(bs: seq<seq<Field>>): string { if bs == [] then "proxies: []" else "proxies:" }

  const END := "proxy-groups:"

  /** The exported document: any text may follow the `proxy-groups:` key. */
  function Document(bs: seq<seq<Field>>, groups: string, fl: FloatTest): string {
    Preamble() + (SectionKey(bs) + "\n") + BlocksText(bs, fl) + (END + "\n") + groups
  }

  /** The flat map of every block. */
  function Maps(bs: seq<seq<Field>>): seq<ProxyMap> {
    seq(|bs|, i requires 0 <= i < |bs| => InsertAll(map[], BlockEntries(bs[i])))
  }

  predicate BlockOk(fs: seq<Field>, fl: FloatTest) {
    BlockItems(fs, fl) != [] && forall f :: f in fs ==> FieldOk(f, fl)
  }

  lemma FourSpaces()
    ensures Spaces(4) == "    " && Spaces(2) == "  " && Spaces(1) == " "
  {
    assert Spaces(0) == "";
    assert Spaces(1) == " ";
    assert Spaces(2) == "  ";
    assert Spaces(3) == "   ";
  }

  /** A line that stays with the open block. */
  predicate Continues(l: string) { !Skipped(TrimSpace(l)) && IndentOf(l) > 0 && !IsSeqItem(TrimSpace(l)) }

  lemma ContinuationRead(l: string, more: seq<string>, r: Reader)
    requires Continues(l)
    ensures ReadFrom([l] + more, r) == ReadFrom(more, r.(cur := r.cur + [l]))
  {
    ReadNext(l, more, r, r.(cur := r.cur + [l]));
  }

  lemma {:induction false} RestRead(ls: seq<string>, more: seq<string>, r: Reader)
    requires forall l :: l in ls ==> Continues(l)
    ensures ReadFrom(ls + more, r) == ReadFrom(more, r.(cur := r.cur + ls))
    decreases ls
  {
    if ls == [] {
      assert ls + more == more && r.cur + ls == r.cur;
    } else {
      var l, tail, next := ls[0], ls[1..], r.(cur := r.cur + [ls[0]]);
      assert l in ls;
      forall m | m in tail ensures m in ls {}
      ContinuationRead(l, tail + more, r);
      RestRead(tail, more, next);
      HeadMoves(r.cur, ls, more);
    }
  }

  lemma PaddedContinues(its: seq<Item>, fl: FloatTest)
    requires AllRead(its, fl)
    ensures forall l :: l in Padded(its, fl) ==> Continues(l)
  {
    forall l | l in Padded(its, fl) ensures Continues(l) {
      var i :| 0 <= i < |its| && Padded(its, fl)[i] == l;
      assert its[i] in its;
      LineFacts(its[i].key, ItemText(its[i], fl), 4);
    }
  }

  lemma DashLine(b: string)
    requires Legible(b)
    ensures var ln := "  - " + b;
      && TrimSpace(ln) == "- " + b && IndentOf(ln) == 2 && IndexOf(ln, '-') == 2 && ln[3..] == " " + b
      && TrimSpace(StripInlineComment(TrimSpace(" " + b))) == b
  {
    var ln := "  - " + b;
    FourSpaces();
    assert ln == Spaces(2) + ("- " + b);
    TrimPadded(2, "- " + b);
    IndentPadded(2, "- " + b);
    DashColumn(ln);
    QuietAnyStart(b);
    ValueKept(b);
  }

  lemma DashColumn(ln: string)
    requires |ln| > 2 && ln[0] == ' ' && ln[1] == ' ' && ln[2] == '-'
    ensures IndexOf(ln, '-') == 2
  {
    var one := ln[1..];
    var two := one[1..];
    assert two[0] == '-' && one[0] == ' ';
    assert IndexOf(two, '-') == 0 && IndexOf(one, '-') == 1;
  }

  /** A dash line closes the open block and starts the next. */
  lemma DashRead(b: string, more: seq<string>, r: Reader)
    requires Legible(b) && !("{" <= b) && Flush(r).Good? && (r.dash < 0 || r.dash == 2)
    ensures ReadFrom(["  - " + b] + more, r) == ReadFrom(more, Reader(Flush(r).value, [Spaces(4) + b], 2))
  {
    DashLine(b);
    var ln, t := "  - " + b, "- " + b;
    assert t[0] == '-' && t[..2] == "- ";
    DashStep(ln, t, b, more, r);
  }

  lemma DashStep(ln: string, t: string, b: string, more: seq<string>, r: Reader)
    requires TrimSpace(ln) == t && !Skipped(t) && IsSeqItem(t) && IndentOf(ln) == 2 && IndexOf(ln, '-') == 2 && |ln| > 2
    requires TrimSpace(StripInlineComment(TrimSpace(ln[3..]))) == b && !("{" <= b)
    requires Flush(r).Good? && (r.dash < 0 || r.dash == 2)
    ensures ReadFrom([ln] + more, r) == ReadFrom(more, Reader(Flush(r).value, [Spaces(4) + b], 2))
  {
    ReadNext(ln, more, r, Reader(Flush(r).value, [Spaces(4) + b], 2));
  }

  lemma ReadNext(ln: string, more: seq<string>, r: Reader, next: Reader)
    requires ReadLine(r, ln) == Go(next)
    ensures ReadFrom([ln] + more, r) == ReadFrom(more, next)
  {
    assert ([ln] + more)[1..] == more;
  }

  lemma BlockLinesSplit(its: seq<Item>, fl: FloatTest)
    requires its != []
    ensures BlockLines(its, fl) == ["  - " + ItemBody(its[0], fl)] + Padded(its[1..], fl)
  {
    FirstLine(its, fl);
    RestIsPadded(its, fl);
    HeadTail(BlockLines(its, fl));
  }

  lemma FirstLine(its: seq<Item>, fl: FloatTest)
    requires its != []
    ensures BlockLines(its, fl)[0] == "  - " + ItemBody(its[0], fl)
  {
    LineText(its[0], true, fl);
  }

  lemma RestIsPadded(its: seq<Item>, fl: FloatTest)
    requires its != []
    ensures BlockLines(its, fl)[1..] == Padded(its[1..], fl)
  {
    var a, b := BlockLines(its, fl)[1..], Padded(its[1..], fl);
    forall i | 0 <= i < |b| ensures a[i] == b[i] { RestAt(its, i + 1, fl); }
  }

  lemma RestAt(its: seq<Item>, i: nat, fl: FloatTest)
    requires 0 < i < |its|
    ensures BlockLines(its, fl)[i] == Padded(its[1..], fl)[i - 1]
  {
    FourSpaces();
    LineText(its[i], false, fl);
    assert its[1..][i - 1] == its[i];
  }

  lemma PaddedCons(its: seq<Item>, fl: FloatTest)
    requires its != []
    ensures Padded(its, fl) == [Spaces(4) + ItemBody(its[0], fl)] + Padded(its[1..], fl)
  {
    PaddedConcat([its[0]], its[1..], fl);
    assert its == [its[0]] + its[1..];
    assert Padded([its[0]], fl) == [Spaces(4) + ItemBody(its[0], fl)];
  }

  lemma LineText(it: Item, first: bool, fl: FloatTest)
    ensures ItemLine(it, first, fl) == (if first then "  - " else "    ") + ItemBody(it, fl)
  {
    var head := if first then "  - " else "    ";
    assert head + it.key + ": " + ItemText(it, fl) == head + (it.key + ": " + ItemText(it, fl));
  }

  /** A whole printed block becomes the reader's open block. */
  lemma BlockRead(its: seq<Item>, more: seq<string>, r: Reader, fl: FloatTest)
    requires its != [] && AllRead(its, fl) && Flush(r).Good? && (r.dash < 0 || r.dash == 2)
    ensures ReadFrom(BlockLines(its, fl) + more, r) == ReadFrom(more, Reader(Flush(r).value, Padded(its, fl), 2))
  {
    var b, tail := ItemBody(its[0], fl), Padded(its[1..], fl);
    assert its[0] in its;
    BlockLinesSplit(its, fl);
    PaddedCons(its, fl);
    BodyLegible(its[0], fl);
    Concat3(["  - " + b], tail, more);
    DashRead(b, tail + more, r);
    RestOf(its, fl);
    RestRead(tail, more, Reader(Flush(r).value, [Spaces(4) + b], 2));
  }

  lemma RestOf(its: seq<Item>, fl: FloatTest)
    requires its != [] && AllRead(its, fl)
    ensures forall l :: l in Padded(its[1..], fl) ==> Continues(l)
  {
    forall it | it in its[1..] ensures it in its {}
    PaddedContinues(its[1..], fl);
  }

  lemma BodyLegible(it: Item, fl: FloatTest)
    requires KeyOk(it.key) && Legible(ItemText(it, fl))
    ensures Legible(ItemBody(it, fl)) && !("{" <= ItemBody(it, fl))
  {
    PairLegible(it.key, ItemText(it, fl));
    assert ItemBody(it, fl)[0] == it.key[0] && it.key[0] in it.key;
  }

  const START := Reader([], [], -1)

  /** The reader after the lines of some blocks: the last one is still open. */
  function After(bs: seq<seq<Field>>, fl: FloatTest): Reader {
    if bs == [] then START
    else Reader(Maps(bs[..|bs| - 1]), Padded(BlockItems(bs[|bs| - 1], fl), fl), 2)
  }

  lemma FlushAfter(bs: seq<seq<Field>>, fl: FloatTest)
    requires forall fs :: fs in bs ==> BlockOk(fs, fl)
    ensures Flush(After(bs, fl)) == Good(Maps(bs))
  {
    if bs == [] {
      assert Maps(bs) == [];
    } else {
      var last := bs[|bs| - 1];
      assert last in bs;
      BlockParses(last, fl);
      MapsSnoc(bs);
    }
  }

  lemma MapsSnoc(bs: seq<seq<Field>>)
    requires bs != []
    ensures Maps(bs) == Maps(bs[..|bs| - 1]) + [InsertAll(map[], BlockEntries(bs[|bs| - 1]))]
  {}

  /** One printed block, read on its own, gives its own flat map. */
  lemma BlockParses(fs: seq<Field>, fl: FloatTest)
    requires BlockOk(fs, fl)
    ensures Padded(BlockItems(fs, fl), fl) != []
    ensures ParseBlock(Padded(BlockItems(fs, fl), fl)) == Good(InsertAll(map[], BlockEntries(fs)))
  {
    BlockReads(fs, fl, map[]);
  }

  lemma {:induction false} BlocksRead(bs: seq<seq<Field>>, more: seq<string>, fl: FloatTest)
    requires forall fs :: fs in bs ==> BlockOk(fs, fl)
    ensures ReadFrom(BlocksLines(bs, fl) + more, START) == ReadFrom(more, After(bs, fl))
  {
    if bs == [] {
      assert BlocksLines(bs, fl) + more == more;
    } else {
      var n := |bs| - 1;
      var its := BlockItems(bs[n], fl);
      assert bs[n] in bs;
      forall fs | fs in bs[..n] ensures fs in bs {}
      assert BlocksLines(bs, fl) + more == BlocksLines(bs[..n], fl) + (BlockLines(its, fl) + more);
      BlocksRead(bs[..n], BlockLines(its, fl) + more, fl);
      FlushAfter(bs[..n], fl);
      BlockReads(bs[n], fl, map[]);
      BlockRead(its, more, After(bs[..n], fl), fl);
    }
  }

  lemma {:induction false} LinesAreSingle(bs: seq<seq<Field>>, fl: FloatTest)
    requires forall fs :: fs in bs ==> BlockOk(fs, fl)
    ensures OneLiners(BlocksLines(bs, fl))
  {
    if bs != [] {
      var n := |bs| - 1;
      assert bs[n] in bs;
      forall fs | fs in bs[..n] ensures fs in bs {}
      LinesAreSingle(bs[..n], fl);
      BlockReads(bs[n], fl, map[]);
      BlockSingle(BlockItems(bs[n], fl), fl);
      SingleConcat(BlocksLines(bs[..n], fl), BlockLines(BlockItems(bs[n], fl), fl));
    }
  }

  lemma SingleConcat(a: seq<string>, b: seq<string>)
    requires OneLiners(a) && OneLiners(b)
    ensures OneLiners(a + b)
  {}

  lemma BlockSingle(its: seq<Item>, fl: FloatTest)
    requires AllRead(its, fl)
    ensures OneLiners(BlockLines(its, fl))
  {
    forall l | l in BlockLines(its, fl) ensures '\n' !in l {
      var i :| 0 <= i < |its| && BlockLines(its, fl)[i] == l;
      assert its[i] in its;
      ItemSingle(its[i], i == 0, fl);
    }
  }

  lemma ItemSingle(it: Item, first: bool, fl: FloatTest)
    requires KeyOk(it.key) && Legible(ItemText(it, fl))
    ensures '\n' !in ItemLine(it, first, fl)
  {
    PairLegible(it.key, ItemText(it, fl));
    var head := if first then "  - " else "    ";
    assert ItemLine(it, first, fl) == head + (it.key + ": " + ItemText(it, fl));
  }

  // ---- the lines around the blocks ----

  /** The lines before the proxies. */
  const HEAD := [TITLE, PORT, MODE]

  lemma DocumentLines(bs: seq<seq<Field>>, groups: string, fl: FloatTest)
    requires forall fs :: fs in bs ==> BlockOk(fs, fl)
    ensures LinesFrom(Document(bs, groups, fl), "") ==
      HEAD + ([SectionKey(bs)] + (BlocksLines(bs, fl) + ([END] + LinesFrom(groups, ""))))
  {
    LinesAreSingle(bs, fl);
    TextIsLines(bs, fl);
    HeadText();
    SingleKeys(bs);
    LinesOfText(Preamble(), HEAD, SectionKey(bs), BlocksText(bs, fl), BlocksLines(bs, fl), END, groups);
  }

  lemma LinesOfText(head: string, hs: seq<string>, key: string, body: string, ls: seq<string>, end: string,
        tail: string)
    requires head == Unlines(hs) && body == Unlines(ls) && OneLiners(hs) && '\n' !in key && OneLiners(ls)
        && '\n' !in end
    ensures LinesFrom(head + (key + "\n") + body + (end + "\n") + tail, "") ==
        hs + ([key] + (ls + ([end] + LinesFrom(tail, ""))))
  {
    LinesBackAround(hs, key, ls, end, tail);
  }

  lemma HeadText()
    ensures Unlines(HEAD) == Preamble()
  {
    ThreeLines(TITLE, PORT, MODE);
  }

  lemma SingleKeys(bs: seq<seq<Field>>)
    ensures OneLiners(HEAD) && '\n' !in SectionKey(bs) && '\n' !in END
  {}

  lemma LinesBackAround(head: seq<string>, key: string, mid: seq<string>, end: string, tail: string)
    requires OneLiners(head) && '\n' !in key && OneLiners(mid) && '\n' !in end
    ensures LinesFrom(Unlines(head) + (key + "\n") + Unlines(mid) + (end + "\n") + tail, "") ==
      head + ([key] + (mid + ([end] + LinesFrom(tail, ""))))
  {
    var t3 := end + "\n" + tail;
    var t2 := Unlines(mid) + t3;
    LinesBack(head, key + "\n" + t2);
    LineTaken(key, t2, "");
    LinesBack(mid, t3);
    LineTaken(end, tail, "");
    assert "" + key == key && "" + end == end;
    Concat5(Unlines(head), key + "\n", Unlines(mid), end + "\n", tail);
  }

  lemma OneLineText(l: string)
    ensures Unlines([l]) == l + "\n"
  {
    assert [l][..0] == [];
    assert Unlines([]) + (l + "\n") == l + "\n";
  }

  lemma ThreeLines(a: string, b: string, c: string)
    ensures Unlines([a, b, c]) == (a + "\n") + (b + "\n") + (c + "\n")
  {
    OneLineText(a);
    OneLineText(b);
    OneLineText(c);
    UnlinesConcat([a], [b]);
    UnlinesConcat([a, b], [c]);
    assert [a, b, c] == [a, b] + [c] && [a, b] == [a] + [b];
  }

  lemma HeadSkipped(more: seq<string>)
    ensures FindProxies(HEAD + more) == FindProxies(more)
  {
    SkipThree(TITLE, PORT, MODE, more);
  }

  lemma SkipThree(a: string, b: string, c: string, more: seq<string>)
    requires Tight(a) && Tight(b) && Tight(c) && !("proxies:" <= a) && !("proxies:" <= b) && !("proxies:" <= c)
    ensures FindProxies([a, b, c] + more) == FindProxies(more)
  {
    SkipHead(a, [b] + ([c] + more));
    SkipHead(b, [c] + more);
    SkipHead(c, more);
    assert [a, b, c] == [a] + [b] + [c];
    Concat4([a], [b], [c], more);
  }

  lemma SkipHead(l: string, more: seq<string>)
    requires Tight(l) && !("proxies:" <= l)
    ensures FindProxies([l] + more) == FindProxies(more)
  {
    TrimTight(l);
    assert ([l] + more)[1..] == more;
  }

  /** The round trip: the reader recovers every proxy of an exported document, in order. */
  lemma DocumentRoundTrip(bs: seq<seq<Field>>, groups: string, fl: FloatTest)
    requires forall fs :: fs in bs ==> BlockOk(fs, fl)
    ensures Extract(Document(bs, groups, fl)) == Good(Maps(bs))
  {
    DocumentLines(bs, groups, fl);
    var rest := [END] + LinesFrom(groups, "");
    var body := BlocksLines(bs, fl) + rest;
    HeadSkipped([SectionKey(bs)] + body);
    if bs == [] {
      EmptySection(body);
      assert Maps(bs) == [];
    } else {
      SectionOpens(body);
      BlocksRead(bs, rest, fl);
      FlushAfter(bs, fl);
      SectionEnds(LinesFrom(groups, ""), After(bs, fl));
    }
  }

  lemma SectionOpens(body: seq<string>)
    ensures FindProxies(["proxies:"] + body) == Lines(body)
  {
    var l := "proxies:";
    TrimTight(l);
    assert l[8..] == [] && (["proxies:"] + body)[1..] == body;
  }

  lemma SectionEnds(more: seq<string>, r: Reader)
    ensures ReadFrom([END] + more, r) == Flush(r)
  {
    TrimTight(END);
  }

  lemma EmptySection(rest: seq<string>)
    ensures FindProxies(["proxies: []"] + rest) == Inline("[]") && ParseInlineSeq("[]") == Good([])
  {
    InlineKey("proxies: []", "[]", rest);
    EmptyInline();
  }

  lemma InlineKey(l: string, value: string, rest: seq<string>)
    requires l == "proxies: " + value && Tight(value) && "[" <= value
    ensures FindProxies([l] + rest) == Inline(value)
  {
    KeyShape(l, value);
    TrimTight(l);
    TrimTight(value);
  }

  lemma KeyShape(l: string, value: string)
    requires l == "proxies: " + value && Tight(value)
    ensures Tight(l) && "proxies:" <= l && l[8..] == " " + value
  {}

  lemma EmptyInline()
    ensures ParseInlineSeq("[]") == Good([])
  {
    TrimTight("[]");
    assert "[]"[1..1] == [];
    assert SplitTopLevel([]) == [""];
    assert TrimSpace("") == "";
    assert SeqItems([""]) == Good([]);
  }
}
