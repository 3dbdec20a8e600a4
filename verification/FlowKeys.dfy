/**
 Which keys of a flow map survive. The Shadowsocks exporter prints keys taken from the user's
 own plugin options, unquoted; the results say exactly which of them read back, and show one
 that makes the whole exported document unreadable.
 */
module FlowKeys {
  import opened Yaml
  import opened ClashPrinter
  import opened ClashParser
  import opened ClashRoundTrip
  import opened ClashDocument

  /** A printed map with one pair. */
  function OnePair(k: string, v: string, fl: FloatTest): string { "{" + (k + ": " + Scalar(v, fl)) + "}" }

  // ---- where an entry comes from ----

  /** The length a dotted prefix adds. */
  function Pre(prefix: string): nat { if prefix == "" then 0 else |prefix| + 1 }

  /** The piece itself is the pair. */
  predicate Direct(p: string, prefix: string, key: string, val: string) {
    var kv := SplitKV(TrimSpace(p));
    kv.KV? && Dotted(prefix, kv.key) == key && TrimSpace(kv.val) != "" && Unquote(TrimSpace(kv.val)) == val
  }

  /** The piece is the pair, or is long enough to nest it. */
  predicate Gives(p: string, prefix: string, key: string, val: string) {
    Direct(p, prefix, key, val) || |key| + |val| + 5 <= Pre(prefix) + |p|
  }

  predicate New(pm: ProxyMap, m: ProxyMap, key: string) { key in m && !(key in pm && pm[key] == m[key]) }

  /** A split with a value loses at least the colon and the blank after it. */
  lemma SplitLengths(s: string)
    ensures SplitKV(s).KV? && SplitKV(s).val != "" ==>
      && var i := ColonFrom(s, 0, TOP);
      && |SplitKV(s).key| <= i && i + 2 + |SplitKV(s).val| <= |s|
  {
    var i := ColonFrom(s, 0, TOP);
    if i < |s| {
      var rest := s[i + 1..];
      UnquoteShorter(TrimSpace(s[..i]));
      TrimShorter(s[..i]);
      TrimShorter(rest);
      StripShorter(TrimSpace(rest), 0, TOP);
      TrimShorter(StripInlineComment(TrimSpace(rest)));
      if rest != [] { BlankTrimmed(rest); }
    }
  }

  lemma BlankTrimmed(s: string)
    requires s != [] && Blank(s[0])
    ensures |TrimSpace(s)| < |s|
  {
    TrimLeftShorter(s[1..]);
    TrimRightShorter(TrimLeft(s));
  }

  lemma DirectLengths(p: string, prefix: string, key: string, val: string)
    requires Direct(p, prefix, key, val)
    ensures |key| + |val| + 2 <= Pre(prefix) + |p|
  {
    var kv := SplitKV(TrimSpace(p));
    TrimShorter(p);
    SplitLengths(TrimSpace(p));
    UnquoteShorter(TrimSpace(kv.val));
    TrimShorter(kv.val);
  }

  /** A flow map only inserts entries it is long enough to hold. */
  lemma {:induction false} FlowGives(s: string, prefix: string, pm: ProxyMap, key: string)
    requires FoldFlow(s, prefix, pm).Good? && New(pm, FoldFlow(s, prefix, pm).value, key)
    ensures |key| + |FoldFlow(s, prefix, pm).value[key]| + 4 <= Pre(prefix) + |s|
    decreases |s|, 1, 0
  {
    var t := TrimSpace(s);
    TrimShorter(s);
    var inner := t[1..|t| - 1];
    PiecesShorter(inner, TOP, []);
    var pieces := SplitTopLevel(inner);
    var p := PairsGive(pieces, |s|, prefix, pm, key);
    var val := FoldFlow(s, prefix, pm).value[key];
    if Direct(p, prefix, key, val) { DirectLengths(p, prefix, key, val); }
  }

  /** What the loop over the pairs does with one piece. */
  function PieceStep(p: string, prefix: string, pm: ProxyMap): Parsed<ProxyMap> {
    var pair := TrimSpace(p);
    if pair == "" then Good(pm)
    else
      match SplitKV(pair)
      case NoKV => Bad
      case KV(key, v) =>
        var val := TrimSpace(v);
        if "{" <= val then FoldFlow(val, Dotted(prefix, key), pm)
        else Good(if val == "" then pm else pm[Dotted(prefix, key) := Unquote(val)])
  }

  lemma PieceFirst(pieces: seq<string>, limit: nat, prefix: string, pm: ProxyMap)
    requires pieces != [] && forall p :: p in pieces ==> |p| < limit
    ensures forall p :: p in pieces[1..] ==> |p| < limit
    ensures FoldPairs(pieces, limit, prefix, pm) ==
      match PieceStep(pieces[0], prefix, pm)
      case Bad => Bad
      case Good(next) => FoldPairs(pieces[1..], limit, prefix, next)
  {}

  lemma {:induction false} PairsGive(pieces: seq<string>, limit: nat, prefix: string, pm: ProxyMap, key: string)
    returns (p: string)
    requires forall p :: p in pieces ==> |p| < limit
    requires FoldPairs(pieces, limit, prefix, pm).Good? && New(pm, FoldPairs(pieces, limit, prefix, pm).value, key)
    ensures p in pieces && Gives(p, prefix, key, FoldPairs(pieces, limit, prefix, pm).value[key])
    decreases limit, 0, |pieces|
  {
    PieceFirst(pieces, limit, prefix, pm);
    assert pieces[0] in pieces;
    var next := PieceStep(pieces[0], prefix, pm).value;
    if New(next, FoldPairs(pieces, limit, prefix, pm).value, key) {
      p := PairsGive(pieces[1..], limit, prefix, next, key);
    } else {
      p := pieces[0];
      PieceGives(p, prefix, pm, key, next);
    }
  }

  lemma {:induction false} PieceGives(p: string, prefix: string, pm: ProxyMap, key: string, next: ProxyMap)
    requires PieceStep(p, prefix, pm) == Good(next) && New(pm, next, key)
    ensures Gives(p, prefix, key, next[key])
    decreases |p|, 2, 0
  {
    var pair := TrimSpace(p);
    TrimShorter(p);
    SplitLengths(pair);
    var kv := SplitKV(pair);
    var val := TrimSpace(kv.val);
    TrimShorter(kv.val);
    SplitKVShorter(pair);
    if "{" <= val { FlowGives(val, Dotted(prefix, kv.key), pm, key); }
  }

  // ---- where a piece lies ----

  ghost predicate At(p: string, s: string, b: nat) { b + |p| <= |s| && s[b..b + |p|] == p }

  ghost predicate Within(p: string, s: string) { exists b: nat :: At(p, s, b) }

  lemma {:induction false} PiecesWithin(s: string, st: Scan, cur: string)
    ensures forall p :: p in SplitFrom(s, st, cur) ==> Within(p, cur + s)
  {
    if s == [] {
      assert At(cur, cur + s, 0);
    } else if s[0] == ',' && st == TOP {
      PiecesWithin(s[1..], st, []);
      assert At(cur, cur + s, 0);
      forall p | p in SplitFrom(s[1..], st, []) ensures Within(p, cur + s) {
        var b: nat :| At(p, [] + s[1..], b);
        assert (cur + s)[|cur| + 1 + b..|cur| + 1 + b + |p|] == s[1..][b..b + |p|];
        assert At(p, cur + s, |cur| + 1 + b);
      }
    } else {
      PiecesWithin(s[1..], Step(st, s[0]), cur + [s[0]]);
      assert cur + [s[0]] + s[1..] == cur + s;
    }
  }

  /** A text with a comma at top level splits there first. */
  lemma {:induction false} FirstComma(s: string, st: Scan, cur: string) returns (j: nat)
    requires !NoTopComma(st, s)
    ensures j < |s| && NoTopComma(st, s[..j])
        && SplitFrom(s, st, cur) == [cur + s[..j]] + SplitFrom(s[j + 1..], TOP, [])
  {
    if s[0] == ',' && st == TOP {
      j := 0;
      assert cur + s[..0] == cur;
    } else {
      var i := FirstComma(s[1..], Step(st, s[0]), cur + [s[0]]);
      j := i + 1;
      assert s[..j] == [s[0]] + s[1..][..i] && s[j + 1..] == s[1..][i + 1..];
      assert cur + [s[0]] + s[1..][..i] == cur + s[..j];
      assert s[..j][1..] == s[1..][..i];
    }
  }

  lemma {:induction false} CommaPrefix(s: string, n: nat, st: Scan)
    requires n <= |s| && NoTopComma(st, s)
    ensures NoTopComma(st, s[..n])
  {
    assert s == s[..n] + s[n..];
    NoTopCommaConcat(st, s[..n], s[n..]);
  }

  // ---- the condition ----

  /** A key that reads and splits nowhere keeps its pair in one piece. */
  lemma FlowKeyReads(k: string, v: string, prefix: string, pm: ProxyMap, fl: FloatTest)
    requires ValOk(v) && FlowKey(k)
    ensures FoldFlow(OnePair(k, v, fl), prefix, pm) == Good(pm[Dotted(prefix, k) := v])
  {
    var s := Scalar(v, fl);
    ScalarReads(v, fl);
    OnePiece(k, s);
    PairTight(k, s);
    QuietAnyStart(s);
    KVReads(k, s);
    PieceReads(k + ": " + s, k, s, prefix, pm);
  }

  lemma OnePiece(k: string, s: string)
    requires FlowKey(k) && NoTopComma(TOP, s)
    ensures SplitTopLevel(k + ": " + s) == [k + ": " + s]
  {
    var inner := k + ": " + s;
    ColonAtTop(k + ": ", 0, TOP);
    assert (k + ": ")[0..|k|] == k;
    NoTopCommaConcat(TOP, k, ": ");
    PlainRun(TOP, ": ");
    RunConcat(TOP, k, ": ");
    NoTopCommaConcat(TOP, k + ": ", s);
    SplitSkips(inner, "", TOP, []);
    assert inner + "" == inner && [] + inner == inner;
  }

  lemma PieceReads(inner: string, k: string, s: string, prefix: string, pm: ProxyMap)
    requires SplitTopLevel(inner) == [inner] && Tight(inner) && SplitKV(inner) == KV(k, s) && Tight(s) && !("{" <= s)
    ensures FoldFlow("{" + inner + "}", prefix, pm) == Good(pm[Dotted(prefix, k) := Unquote(s)])
  {
    TrimTight(inner);
    FoldFlowOpens("{" + inner + "}", inner, prefix, pm);
    FoldPairsFlat(inner, [], |inner| + 2, prefix, pm, k, s);
    assert [inner] + [] == [inner];
  }

  lemma ScalarLength(v: string, fl: FloatTest)
    requires ValOk(v)
    ensures var s := Scalar(v, fl); |s| == |v| || (|s| == |v| + 2 && s[0] == '"')
  {
    EscapeNothing(v);
  }

  /** A text inside the printed pair can only give the pair when it starts where the pair starts. */
  lemma OnlyWhole(k: string, v: string, fl: FloatTest, t: string, b: nat)
    requires ValOk(v) && v != "" && At(t, k + ": " + Scalar(v, fl), b)
    requires SplitKV(t).KV? && SplitKV(t).key == k && |v| <= |SplitKV(t).val|
    ensures b == 0 && |t| >= |k| + 2 && ColonFrom(t, 0, TOP) == |k|
  {
    var inner := k + ": " + Scalar(v, fl);
    var i := ColonFrom(t, 0, TOP);
    SplitLengths(t);
    ScalarLength(v, fl);
    assert inner[b + i] == t[i];
    assert inner[|k|] == ':' && inner[|k| + 1] == ' ' && inner[|k| + 2] == Scalar(v, fl)[0];
    assert |k| <= b + i <= |k| + 2;
  }

  /** Trimming keeps a text in place. */
  lemma TrimmedAt(p: string, s: string, b: nat) returns (c: nat)
    requires At(p, s, b)
    ensures b <= c && At(TrimSpace(p), s, c)
  {
    var l := TrimLeft(p);
    TrimLeftShorter(p);
    TrimRightShorter(l);
    c := b + |p| - |l|;
    assert l == p[|p| - |l|..];
    assert TrimSpace(p) == l[..|TrimSpace(p)|];
    assert s[c..c + |TrimSpace(p)|] == s[b..b + |p|][|p| - |l|..][..|TrimSpace(p)|];
  }

  lemma DirectIsWhole(k: string, v: string, fl: FloatTest, p: string, b: nat)
    requires ValOk(v) && v != "" && At(p, k + ": " + Scalar(v, fl), b) && Direct(p, "", k, v)
    ensures b == 0 && |p| > |k| && KeyReads(k)
  {
    var inner, t := k + ": " + Scalar(v, fl), TrimSpace(p);
    var c := TrimmedAt(p, inner, b);
    DirectSplit(p, k, v);
    OnlyWhole(k, v, fl, t, c);
    TrimShorter(p);
    assert c == 0 && b == 0;
    assert t[..|k| + 2] == inner[..|k| + 2] == k + ": ";
    HeadReads(k, t);
  }

  lemma DirectSplit(p: string, k: string, v: string)
    requires Direct(p, "", k, v)
    ensures SplitKV(TrimSpace(p)).KV? && SplitKV(TrimSpace(p)).key == k && |v| <= |SplitKV(TrimSpace(p)).val|
  {
    var kv := SplitKV(TrimSpace(p));
    UnquoteShorter(TrimSpace(kv.val));
    TrimShorter(kv.val);
  }

  lemma HeadReads(k: string, t: string)
    requires |t| >= |k| + 2 && t[..|k| + 2] == k + ": " && ColonFrom(t, 0, TOP) == |k| && SplitKV(t).KV?
        && SplitKV(t).key == k
    ensures KeyReads(k)
  {
    var head, rest := k + ": ", t[|k| + 2..];
    assert t == head + rest;
    ColonSame(head, rest, 0, |k|, TOP);
    assert t[..|k|] == k;
    UnquoteTrimmed(k);
  }

  /** Conversely only such a key gets the pair back as it was printed. */
  lemma OnlyFlowKeyReads(k: string, v: string, fl: FloatTest)
    requires ValOk(v) && v != "" && FoldFlow(OnePair(k, v, fl), "", map[]) == Good(map[k := v])
    ensures FlowKey(k)
  {
    var inner := k + ": " + Scalar(v, fl);
    ScalarLength(v, fl);
    var p := DirectPiece(inner, k, v);
    if NoTopComma(TOP, inner) {
      PlainPieceReads(inner, k, v, fl, p);
    } else {
      CommaKeyReads(inner, k, v, fl, p);
    }
  }

  /** Nothing this short nests the pair, so some piece is the pair itself. */
  lemma DirectPiece(inner: string, k: string, v: string) returns (p: string)
    requires |inner| <= |k| + |v| + 4 && FoldFlow("{" + inner + "}", "", map[]) == Good(map[k := v])
    ensures p in SplitTopLevel(inner) && Direct(p, "", k, v)
  {
    FoldFlowOpens("{" + inner + "}", inner, "", map[]);
    p := PairsGive(SplitTopLevel(inner), |inner| + 2, "", map[], k);
    PiecesShorter(inner, TOP, []);
  }

  lemma PlainPieceReads(inner: string, k: string, v: string, fl: FloatTest, p: string)
    requires inner == k + ": " + Scalar(v, fl) && NoTopComma(TOP, inner)
    requires ValOk(v) && v != "" && Direct(p, "", k, v) && p in SplitTopLevel(inner)
    ensures FlowKey(k)
  {
    PiecesWithin(inner, TOP, []);
    assert [] + inner == inner;
    var b: nat :| At(p, inner, b);
    DirectIsWhole(k, v, fl, p, b);
    CommaPrefix(inner, |k|, TOP);
    assert inner[..|k|] == k;
  }

  lemma CommaKeyReads(inner: string, k: string, v: string, fl: FloatTest, p: string)
    requires inner == k + ": " + Scalar(v, fl) && !NoTopComma(TOP, inner)
    requires ValOk(v) && v != "" && Direct(p, "", k, v) && p in SplitTopLevel(inner)
    ensures FlowKey(k)
  {
    var j := FirstComma(inner, TOP, []);
    assert [] + inner[..j] == inner[..j];
    if p == inner[..j] {
      assert At(p, inner, 0);
      DirectIsWhole(k, v, fl, p, 0);
      CommaPrefix(p, |k|, TOP);
      assert p[..|k|] == k;
    } else {
      var b := LaterPiece(inner, j, p);
      DirectIsWhole(k, v, fl, p, b);
    }
  }

  lemma LaterPiece(s: string, j: nat, p: string) returns (b: nat)
    requires j < |s| && p in SplitFrom(s[j + 1..], TOP, [])
    ensures b > 0 && At(p, s, b)
  {
    var tail := s[j + 1..];
    PiecesWithin(tail, TOP, []);
    assert [] + tail == tail;
    var a: nat :| At(p, tail, a);
    b := j + 1 + a;
    assert s[b..b + |p|] == tail[a..a + |p|];
  }

  /** A printed pair reads back as itself exactly when its key is a flow key. */
  lemma FlowKeyIff(k: string, v: string, fl: FloatTest)
    requires ValOk(v) && v != ""
    ensures FoldFlow(OnePair(k, v, fl), "", map[]) == Good(map[k := v]) <==> FlowKey(k)
  {
    if FlowKey(k) {
      FlowKeyReads(k, v, "", map[], fl);
    } else if FoldFlow(OnePair(k, v, fl), "", map[]) == Good(map[k := v]) {
      OnlyFlowKeyReads(k, v, fl);
    }
  }

  // ---- a key that does not survive ----

  lemma {:induction false} NoColon(s: string, i: nat, st: Scan)
    requires i <= |s| && ':' !in s
    ensures ColonFrom(s, i, st) == |s|
    decreases |s| - i
  {
    if i < |s| {
      assert s[i] in s;
      NoColon(s, i + 1, Step(st, s[i]));
    }
  }

  /** A comma after a plain word cuts that word off as a pair without colon: the whole map is refused. */
  lemma CommaKeyFails(a: string, rest: string, v: string, fl: FloatTest)
    requires KeyOk(a)
    ensures ParseFlow(OnePair(a + ", " + rest, v, fl)) == Bad
  {
    var tail := rest + ": " + Scalar(v, fl);
    var inner := a + (", " + tail);
    assert a + ", " + rest + ": " + Scalar(v, fl) == inner;
    PlainKey(a);
    KeyFacts(a);
    WholeIsPiece(a);
    SplitComma(a, tail, []);
    assert [] + a == a;
    NoColon(a, 0, TOP);
    FoldFlowOpens("{" + inner + "}", inner, "", map[]);
    PieceFirst(SplitTopLevel(inner), |inner| + 2, "", map[]);
  }

  /** Some keys either way: a colon hurts only before a blank, a comma only at top level. */
  lemma KeyExamples()
    ensures FlowKey("a:b") && !FlowKey("a: b") && !FlowKey("a, b")
  {
    ColonKey("a:b");
    BlankColonKey("a: b");
    CommaKey("a, b");
  }

  lemma CommaKey(k: string)
    requires k == "a, b"
    ensures !NoTopComma(TOP, k)
  {
    assert k[1..][0] == ',';
  }

  lemma ColonKey(k: string)
    requires k == "a:b"
    ensures FlowKey(k)
  {
    var s := k + ": ";
    assert Step(TOP, 'a') == TOP && Step(TOP, ':') == TOP && Step(TOP, 'b') == TOP;
    ColonNext(s, 2, TOP);
    ColonNext(s, 1, TOP);
    ColonNext(s, 0, TOP);
    TrimTight(k);
    PlainRun(TOP, k);
  }

  lemma BlankColonKey(k: string)
    requires k == "a: b"
    ensures !FlowKey(k)
  {
    var s := k + ": ";
    ColonNext(s, 1, TOP);
    ColonNext(s, 0, TOP);
  }

  /** A proxy with one plain field and one option map of one pair, as for a Shadowsocks plugin. */
  function Proxy(name: Field, options: string, p: Pair): seq<Field> { [name, Opts(options, [p], "")] }

  function ProxyItems(name: Field, options: string, p: Pair, fl: FloatTest): seq<Item>
    requires name.Text?
  {
    [Item(name.key, name.val, false), Item(options, OnePair(p.key, p.val, fl), true)]
  }

  /** The option key is two words with a comma and a blank between. */
  ghost predicate CutProxy(name: Field, options: string, p: Pair, a: string, b: string, fl: FloatTest) {
    && name.Text? && FieldOk(name, fl) && KeyOk(options) && KeyOk(a) && KeyOk(b)
    && p.key == a + ", " + b && ValOk(p.val) && p.val != ""
  }

  lemma ItemsOf(name: Field, options: string, p: Pair, fl: FloatTest)
    requires name.Text? && p.val != ""
    ensures BlockItems(Proxy(name, options, p), fl) == ProxyItems(name, options, p, fl)
  {
    OnePairItem(options, p, fl);
    TwoFields(name, Opts(options, [p], ""), fl);
  }

  lemma TwoFields(a: Field, b: Field, fl: FloatTest)
    ensures BlockItems([a, b], fl) == FieldItems(a, fl) + FieldItems(b, fl)
  {
    assert [a, b][..1] == [a] && [a][..0] == [];
    assert BlockItems([a], fl) == [] + FieldItems(a, fl);
  }

  lemma OnePairItem(options: string, p: Pair, fl: FloatTest)
    requires p.val != ""
    ensures FieldItems(Opts(options, [p], ""), fl) == [Item(options, OnePair(p.key, p.val, fl), true)]
  {
    assert NonEmptyParts([p], "") == [Flat(p)] by { assert [p][..0] == []; }
    assert OptsParts([p], "") == [Flat(p)];
    assert PartTexts([Flat(p)], fl) == [PairText(p, fl)];
  }

  /** The map is well-formed text all the same: every line scanner passes over it. */
  lemma CutReadable(name: Field, options: string, p: Pair, a: string, b: string, fl: FloatTest)
    requires CutProxy(name, options, p, a, b, fl)
    ensures Legible(OnePair(p.key, p.val, fl)) && AllRead(ProxyItems(name, options, p, fl), fl)
  {
    PlainKey(a);
    PlainKey(b);
    ScalarReads(p.val, fl);
    CommaSteady(p.key, a, b, Scalar(p.val, fl));
    ScalarReads(name.val, fl);
  }

  lemma CommaSteady(k: string, a: string, b: string, s: string)
    requires k == a + ", " + b && MapKey(a) && MapKey(b) && Whole(s)
    ensures Readable("{" + (k + ": " + s) + "}")
  {
    SteadyAround(a, ", ", b);
    SteadyAround(k, ": ", s);
    BracedReadable(k + ": " + s);
  }

  lemma SteadyAround(a: string, sep: string, b: string)
    requires Steady(a) && Plain(sep) && Steady(b) && '\n' !in a && '\n' !in sep && '\n' !in b
    ensures Steady(a + sep + b) && '\n' !in a + sep + b
  {
    SteadyConcat(a, sep);
    SteadyConcat(a + sep, b);
  }

  lemma CutParses(name: Field, options: string, p: Pair, a: string, b: string, fl: FloatTest)
    requires CutProxy(name, options, p, a, b, fl)
    ensures ParseBlock(Padded(ProxyItems(name, options, p, fl), fl)) == Bad
  {
    CutReadable(name, options, p, a, b, fl);
    CommaKeyFails(a, b, p.val, fl);
    ScalarReads(name.val, fl);
    ScalarItemReads(name.key, Scalar(name.val, fl), name.val, Item(name.key, name.val, false), fl);
    BadMapLine(options, OnePair(p.key, p.val, fl));
    TwoLines(name, options, p, fl);
    BadSecond(Block(map[], []), Line(name.key, Scalar(name.val, fl)), Line(options, OnePair(p.key, p.val, fl)),
              Block(InsertAll(map[], [Pair(name.key, name.val)]), []));
  }

  function Line(k: string, t: string): string { Spaces(4) + (k + ": " + t) }

  lemma TwoLines(name: Field, options: string, p: Pair, fl: FloatTest)
    requires name.Text?
    ensures Padded(ProxyItems(name, options, p, fl), fl) ==
      [Line(name.key, Scalar(name.val, fl)), Line(options, OnePair(p.key, p.val, fl))]
  {}

  lemma BadMapLine(k: string, t: string)
    requires KeyOk(k) && Legible(t) && "{" <= t && ParseFlow(t) == Bad
    ensures forall pm :: BlockStep(Block(pm, []), Line(k, t)) == Bad
  {
    LineFacts(k, t, 4);
  }

  lemma BadSecond(b: Block, first: string, second: string, next: Block)
    requires BlockStep(b, first) == Good(next) && BlockStep(next, second) == Bad
    ensures BlockFold(b, [first, second]) == Bad
  {
    assert [first, second][1..] == [second];
  }

  /** One such proxy makes the reader refuse the exported document as a whole. */
  lemma CutDocument(name: Field, options: string, p: Pair, a: string, b: string, groups: string, fl: FloatTest)
    requires CutProxy(name, options, p, a, b, fl)
    ensures Extract(Document([Proxy(name, options, p)], groups, fl)) == Bad
  {
    var bs, its, tail := [Proxy(name, options, p)], ProxyItems(name, options, p, fl), [END] + LinesFrom(groups, "");
    var body := BlockLines(its, fl) + tail;
    CutReadable(name, options, p, a, b, fl);
    CutParses(name, options, p, a, b, fl);
    ItemsOf(name, options, p, fl);
    OneBlockLines(Proxy(name, options, p), groups, fl);
    HeadSkipped([SectionKey(bs)] + body);
    SectionOpens(body);
    BlockRead(its, tail, START, fl);
    SectionEnds(LinesFrom(groups, ""), Reader([], Padded(its, fl), 2));
  }

  lemma OneBlockLines(fs: seq<Field>, groups: string, fl: FloatTest)
    requires AllRead(BlockItems(fs, fl), fl)
    ensures LinesFrom(Document([fs], groups, fl), "") ==
      HEAD + ([SectionKey([fs])] + (BlockLines(BlockItems(fs, fl), fl) + ([END] + LinesFrom(groups, ""))))
  {
    BlockSingle(BlockItems(fs, fl), fl);
    TextIsLines([fs], fl);
    OneBlock(fs, fl);
    HeadText();
    SingleKeys([fs]);
    LinesOfText(Preamble(), HEAD, SectionKey([fs]), BlocksText([fs], fl), BlockLines(BlockItems(fs, fl), fl),
                END, groups);
  }

  lemma OneBlock(fs: seq<Field>, fl: FloatTest)
    ensures BlocksLines([fs], fl) == BlockLines(BlockItems(fs, fl), fl)
  {
    assert [fs][..0] == [] && BlocksLines([], fl) == [];
    assert [] + BlockLines(BlockItems(fs, fl), fl) == BlockLines(BlockItems(fs, fl), fl);
  }
}
