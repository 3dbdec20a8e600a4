/**
 Printing and parsing a Clash document are inverse: for every document the exporter's builder
 can make from plain keys and from values free of double quote, backslash, newline and tab,
 the importer's reader gives back exactly the flat key/value map of every proxy.
 */
module ClashRoundTrip {
  import opened Yaml
  import opened ClashPrinter
  import opened ClashParser

  /** What a proxy block is built from: `add`, `addBool`, and `addMap`/`addOpts`. */
  datatype Field =
    | Text(key: string, val: string)
    | Flag(key: string, on: bool)
    | Opts(key: string, pairs: seq<Pair>, host: string)

  function FieldItems(f: Field, fl: FloatTest): seq<Item> {
    match f
    case Text(k, v) => [Item(k, v, false)]
    case Flag(k, on) => [Item(k, if on then "true" else "false", true)]
    case Opts(k, pairs, host) => MapItems(k, OptsParts(pairs, host), fl)
  }

  function BlockItems(fs: seq<Field>, fl: FloatTest): seq<Item> {
    if fs == [] then [] else BlockItems(fs[..|fs| - 1], fl) + FieldItems(fs[|fs| - 1], fl)
  }

  /** A proxy printer: one builder, one call per field, rendered at the end. */
  method RenderBlock(fs: seq<Field>, fl: FloatTest) returns (text: string)
    ensures text == RenderItems(BlockItems(fs, fl), fl)
  {
    var kv := new ClashKV();
    for i := 0 to |fs|
      invariant fresh(kv) && kv.Valid() && kv.Items() == BlockItems(fs[..i], fl)
    {
      assert fs[..i + 1][..i] == fs[..i];
      match fs[i]
      case Text(k, v) => kv.Add(k, v);
      case Flag(k, on) => kv.AddBool(k, on);
      case Opts(k, pairs, host) => kv.AddOpts(k, pairs, host, fl);
    }
    assert fs[..|fs|] == fs;
    text := kv.Render(fl);
  }

  // ---- the expected flat map ----

  function PartEntry(prefix: string, p: Part): Pair {
    match p
    case Flat(q) => Pair(Dotted(prefix, q.key), q.val)
    case Nested(outer, q) => Pair(Dotted(Dotted(prefix, outer), q.key), q.val)
    case Verbatim(q) => Pair(Dotted(prefix, q.key), q.val)
  }

  function PartEntries(prefix: string, ps: seq<Part>): seq<Pair> {
    seq(|ps|, i requires 0 <= i < |ps| => PartEntry(prefix, ps[i]))
  }

  /** The dotted keys and values of one field. */
  function FieldEntries(f: Field): seq<Pair> {
    match f
    case Text(k, v) => [Pair(k, v)]
    case Flag(k, on) => [Pair(k, if on then "true" else "false")]
    case Opts(k, pairs, host) => PartEntries(k, OptsParts(pairs, host))
  }

  function BlockEntries(fs: seq<Field>): seq<Pair> {
    if fs == [] then [] else BlockEntries(fs[..|fs| - 1]) + FieldEntries(fs[|fs| - 1])
  }

  /** Entries in order; a repeated key keeps its last value. */
  function InsertAll(pm: ProxyMap, es: seq<Pair>): ProxyMap
    decreases es
  {
    if es == [] then pm else InsertAll(pm[es[0].key := es[0].val], es[1..])
  }

  lemma {:induction false} InsertConcat(pm: ProxyMap, a: seq<Pair>, b: seq<Pair>)
    ensures InsertAll(pm, a + b) == InsertAll(InsertAll(pm, a), b)
    decreases a
  {
    if a == [] {
      assert a + b == b;
    } else {
      assert (a + b)[1..] == a[1..] + b;
      InsertConcat(pm[a[0].key := a[0].val], a[1..], b);
    }
  }

  // ---- what may be printed ----

  predicate KeyOk(k: string) {
    k != "" && k[0] != '-' && forall c :: c in k ==> !IsSpace(c) && c !in "\"'{}[]:,#"
  }

  predicate ValOk(v: string) { forall c :: c in v ==> c !in "\"\\\n\t" }

  /** The reader's scanner finds the printed colon, not one in the key, and does not strip the key. */
  predicate KeyReads(k: string) { ColonFrom(k + ": ", 0, TOP) == |k| && Unquote(k) == k }

  /** A key that stays whole between the commas of a flow map. */
  predicate FlowKey(k: string) { KeyReads(k) && NoTopComma(TOP, k) }

  /** A flow-map key, which may be user text: read whole, on one line, closing no bracket it did not open. */
  ghost predicate MapKey(k: string) { FlowKey(k) && Steady(k) && '\n' !in k }

  /** An option map's keys, which may be user text, are flow keys, and its text stays on one line without a comment. */
  predicate FieldOk(f: Field, fl: FloatTest) {
    && KeyOk(f.key)
    && (f.Text? ==> ValOk(f.val))
    && (f.Opts? ==>
          && ValOk(f.host) && (forall p :: p in f.pairs ==> PairOk(p, f.host))
          && Legible(MapText(OptsParts(f.pairs, f.host), fl)))
  }

  /** Beside a host header no caller passes a pair that is itself called `headers`. */
  predicate PairOk(p: Pair, host: string) {
    FlowKey(p.key) && ValOk(p.val) && (host != "" ==> p.key != "headers")
  }

  ghost predicate PartOk(p: Part) {
    FlowKey(p.pair.key) && ValOk(p.pair.val) && !p.Verbatim? && (p.Nested? ==> KeyOk(p.outer) && MapKey(p.pair.key))
  }

  function MapText(ps: seq<Part>, fl: FloatTest): string { "{" + JoinParts(ps, fl) + "}" }

  // ---- scalars ----

  /** A text that leaves the scanner where it was, from any depth outside quotes. */
  ghost predicate Steady(t: string) {
    forall d: nat :: Run(Scan(d, NONE), t) == Scan(d, NONE) && (d > 0 ==> Inside(Scan(d, NONE), t))
  }

  /** What the reader needs of a member of a flow map at top level. */
  predicate Piece(t: string) { Tight(t) && Run(TOP, t) == TOP && NoTopComma(TOP, t) }

  /** What the reader needs of a text on a line. */
  predicate Legible(t: string) { Tight(t) && Quiet(' ', TOP, t) && '\n' !in t }

  /** What it needs of a member of a flow map at any depth. */
  ghost predicate Whole(t: string) { Tight(t) && Steady(t) && NoTopComma(TOP, t) && '\n' !in t }

  /** What the reader needs of a printed value. */
  ghost predicate Readable(t: string) { Whole(t) && Quiet(' ', TOP, t) }

  lemma {:induction false} EscapeNothing(v: string)
    requires ValOk(v)
    ensures EscapeAll(v) == v
  {
    if v != [] {
      var n := |v| - 1;
      assert v[n] in v;
      ValOkPrefix(v, n);
      EscapeNothing(v[..n]);
      assert v == v[..n] + [v[n]];
    }
  }

  lemma ValOkPrefix(v: string, n: nat)
    requires ValOk(v) && n <= |v|
    ensures ValOk(v[..n])
  {
    forall c | c in v[..n] ensures c in v {}
  }

  lemma BareChars(v: string, fl: FloatTest)
    requires !NeedsQuote(v, fl)
    ensures Tight(v) && Plain(v) && ',' !in v && '\n' !in v && v[0] != '#' && v[0] != '{'
    ensures forall i :: 0 < i < |v| && v[i] == '#' ==> !Blank(v[i - 1])
  {
    UntrimmedIsTight(v);
    forall c | c in v ensures c !in ",[]{}\"'\n\t\\" {
      var i :| 0 <= i < |v| && v[i] == c;
      assert !Breaks(v, i);
    }
    forall i | 0 < i < |v| && v[i] == '#' ensures !Blank(v[i - 1]) {
      assert !Breaks(v, i);
      assert v[i - 1] in v;
    }
  }

  lemma {:induction false} BareQuiet(prev: char, d: nat, v: string)
    requires Plain(v) && (v != [] && v[0] == '#' ==> !Blank(prev))
    requires forall i :: 0 < i < |v| && v[i] == '#' ==> !Blank(v[i - 1])
    ensures Quiet(prev, Scan(d, NONE), v)
    decreases v
  {
    if v != [] {
      assert v[0] in v;
      forall c | c in v[1..] ensures c in v {}
      forall i | 0 < i < |v[1..]| && v[1..][i] == '#' ensures !Blank(v[1..][i - 1]) { assert v[i + 1] == '#'; }
      if |v| > 1 && v[1] == '#' { assert !Blank(v[0]); }
      BareQuiet(v[0], d, v[1..]);
    }
  }

  lemma BareReadable(v: string, fl: FloatTest)
    requires !NeedsQuote(v, fl)
    ensures Readable(v) && Unquote(v) == v
  {
    BareChars(v, fl);
    forall d: nat ensures Run(Scan(d, NONE), v) == Scan(d, NONE) && (d > 0 ==> Inside(Scan(d, NONE), v)) {
      PlainRun(Scan(d, NONE), v);
    }
    PlainRun(TOP, v);
    BareQuiet(' ', 0, v);
    TrimTight(v);
    assert v[0] in v;
  }

  lemma QuotedReadable(v: string)
    requires ValOk(v)
    ensures var t := "\"" + v + "\""; Readable(t) && Unquote(t) == v
  {
    var t := "\"" + v + "\"";
    assert t[1..] == v + "\"";
    forall d: nat ensures Run(Scan(d, NONE), t) == Scan(d, NONE) && (d > 0 ==> Inside(Scan(d, NONE), t)) {
      QuotedRun('"', d, v);
    }
    QuotedRun('"', 0, v);
    InsideIsQuiet('"', Scan(0, '"'), t[1..]);
    TrimTight(t);
    assert t[1..|t| - 1] == v;
  }

  /** A printed scalar is readable and reads back as the value it prints. */
  lemma ScalarReads(v: string, fl: FloatTest)
    requires ValOk(v)
    ensures Readable(Scalar(v, fl)) && Unquote(Scalar(v, fl)) == v && !("{" <= Scalar(v, fl))
  {
    if NeedsQuote(v, fl) {
      EscapeNothing(v);
      QuotedReadable(v);
    } else {
      BareReadable(v, fl);
      BareChars(v, fl);
    }
  }

  lemma {:induction false} EscapeLengthens(v: string)
    ensures |EscapeAll(v)| >= |v| && (!ValOk(v) ==> |EscapeAll(v)| > |v|)
  {
    if v != [] {
      var n := |v| - 1;
      EscapeLengthens(v[..n]);
      assert v == v[..n] + [v[n]];
      if ValOk(v[..n]) && v[n] !in "\"\\\n\t" { assert ValOk(v); }
    }
  }

  /** The reader undoes no escape: a value survives exactly when it holds none of the four escaped characters. */
  lemma ScalarSurvivesIff(v: string, fl: FloatTest)
    ensures Unquote(Scalar(v, fl)) == v <==> ValOk(v)
  {
    if ValOk(v) {
      ScalarReads(v, fl);
    } else {
      var i :| 0 <= i < |v| && v[i] in "\"\\\n\t";
      assert Breaks(v, i);
      EscapeLengthens(v);
      var t := "\"" + EscapeAll(v) + "\"";
      TrimTight(t);
      assert t[1..|t| - 1] == EscapeAll(v);
    }
  }

  // ---- key: value ----

  lemma KeyFacts(k: string)
    requires KeyOk(k)
    ensures Tight(k) && Plain(k) && Plain(k + ": ") && '#' !in k + ": " && ',' !in k + ": " && Unquote(k) == k
  {
    assert k[0] in k && k[|k| - 1] in k;
    TrimTight(k);
  }

  /** A printed value survives the trimming and the comment stripping around it. */
  lemma ValueKept(t: string)
    requires Tight(t) && Quiet(NONE, TOP, t)
    ensures TrimSpace(StripInlineComment(TrimSpace(" " + t))) == t
  {
    TrimTight(t);
    assert t[0..] == t && t[..0] == [];
    QuietKept(t, 0, TOP);
  }

  /** The colon search stops at a position or not whatever follows the two characters there. */
  lemma {:induction false} ColonSame(a: string, b: string, i: nat, n: nat, st: Scan)
    requires i <= n && n + 1 < |a|
    ensures ColonFrom(a, i, st) == n <==> ColonFrom(a + b, i, st) == n
    decreases n - i
  {
    if i < n { ColonSame(a, b, i + 1, n, Step(st, a[i])); }
  }

  lemma {:induction false} UnquoteShorter(k: string)
    ensures |Unquote(k)| <= |TrimSpace(k)| <= |k|
    ensures Unquote(k) == k && k != "" ==> Tight(k)
  {
    TrimShorter(k);
    TrimLeftShorter(k);
    TrimRightShorter(TrimLeft(k));
  }

  lemma UnquoteTrimmed(k: string)
    ensures Unquote(TrimSpace(k)) == Unquote(k)
  {
    TrimShorter(k);
    if TrimSpace(k) != [] { TrimTight(TrimSpace(k)); }
  }

  /** `splitYAMLKV` takes a printed pair apart again exactly when its key reads. */
  lemma KVReads(k: string, t: string)
    requires Tight(t) && Quiet(NONE, TOP, t)
    ensures SplitKV(k + ": " + t) == KV(k, t) <==> KeyReads(k)
  {
    var s := k + ": " + t;
    assert s == (k + ": ") + t && s[..|k|] == k && s[|k| + 1..] == " " + t;
    ColonSame(k + ": ", t, 0, |k|, TOP);
    ValueKept(t);
    UnquoteTrimmed(k);
    if SplitKV(s) == KV(k, t) { SplitAtColon(s, k, t); }
  }

  /** A split into these two parts can only have happened at the printed colon. */
  lemma SplitAtColon(s: string, k: string, t: string)
    requires s == k + ": " + t && SplitKV(s) == KV(k, t)
    ensures ColonFrom(s, 0, TOP) == |k|
  {
    var i := ColonFrom(s, 0, TOP);
    UnquoteShorter(TrimSpace(s[..i]));
    TrimShorter(s[..i]);
    TrimShorter(s[i + 1..]);
    StripShorter(TrimSpace(s[i + 1..]), 0, TOP);
    TrimShorter(StripInlineComment(TrimSpace(s[i + 1..])));
    assert |k| <= i <= |k| + 1;
    assert s[|k| + 1] == ' ';
  }

  /** Every fixed key the printers use qualifies inside a flow map too. */
  lemma PlainKey(k: string)
    requires KeyOk(k)
    ensures MapKey(k)
  {
    KeyFacts(k);
    forall d: nat ensures Run(Scan(d, NONE), k) == Scan(d, NONE) && (d > 0 ==> Inside(Scan(d, NONE), k)) {
      forall c | c in k ensures c in k + ": " {}
      PlainRun(Scan(d, NONE), k);
    }
    PlainRun(TOP, k);
    assert (k + ": ")[..|k|] == k;
    PlainColon(k + ": ", 0, |k|);
  }

  lemma KeySplits(k: string, t: string)
    requires KeyOk(k) && Tight(t) && Quiet(NONE, TOP, t)
    ensures SplitKV(k + ": " + t) == KV(k, t)
  {
    PlainKey(k);
    KVReads(k, t);
  }

  lemma QuietAnyStart(t: string)
    requires Quiet(' ', TOP, t)
    ensures Quiet(NONE, TOP, t)
  {}

  /** A printed pair stays whole between commas. */
  lemma PairWhole(k: string, t: string)
    requires MapKey(k) && Whole(t)
    ensures Whole(k + ": " + t)
  {
    SteadyConcat(k, ": ");
    SteadyConcat(k + ": ", t);
    PairCommas(k, t);
    PairTight(k, t);
  }

  lemma PairCommas(k: string, t: string)
    requires Steady(k) && NoTopComma(TOP, k) && NoTopComma(TOP, t)
    ensures NoTopComma(TOP, k + ": " + t)
  {
    assert Run(Scan(0, NONE), k) == TOP;
    NoTopCommaConcat(TOP, k, ": ");
    PlainRun(TOP, ": ");
    RunConcat(TOP, k, ": ");
    NoTopCommaConcat(TOP, k + ": ", t);
  }

  lemma PairTight(k: string, t: string)
    requires Unquote(k) == k && Tight(t)
    ensures Tight(k + ": " + t)
  {
    UnquoteShorter(k);
    var s := k + ": " + t;
    assert s[0] == (if k == "" then ':' else k[0]) && s[|s| - 1] == t[|t| - 1];
  }

  /** Under a fixed key no comment starts either. */
  lemma PairReadable(k: string, t: string)
    requires KeyOk(k) && Readable(t)
    ensures Readable(k + ": " + t)
  {
    var pre := k + ": ";
    PlainKey(k);
    PairWhole(k, t);
    KeyFacts(k);
    PlainRun(TOP, pre);
    PlainQuiet(' ', TOP, pre);
    QuietConcat(' ', TOP, pre, t);
  }

  /** The same for any text on a line. */
  lemma PairLegible(k: string, t: string)
    requires KeyOk(k) && Legible(t)
    ensures Legible(k + ": " + t)
  {
    var pre := k + ": ";
    PlainKey(k);
    KeyFacts(k);
    PlainRun(TOP, pre);
    PlainQuiet(' ', TOP, pre);
    QuietConcat(' ', TOP, pre, t);
    PairTight(k, t);
    forall c | c in pre + t ensures c != '\n' { assert c in pre || c in t; }
  }

  lemma {:induction false} ColonAtTop(s: string, i: nat, st: Scan)
    requires i <= |s| && ColonFrom(s, i, st) < |s|
    ensures Run(st, s[i..ColonFrom(s, i, st)]) == TOP
    decreases |s| - i
  {
    var n := ColonFrom(s, i, st);
    ColonNext(s, i, st);
    if i < n {
      ColonAtTop(s, i + 1, Step(st, s[i]));
      assert s[i..n][1..] == s[i + 1..n];
    }
  }

  /** A pair under a flow key is one piece. */
  lemma PairPiece(k: string, t: string)
    requires FlowKey(k) && Piece(t)
    ensures Piece(k + ": " + t)
  {
    ColonAtTop(k + ": ", 0, TOP);
    assert (k + ": ")[0..|k|] == k;
    RunConcat(TOP, k, ": ");
    PlainRun(TOP, ": ");
    NoTopCommaConcat(TOP, k, ": ");
    RunConcat(TOP, k + ": ", t);
    NoTopCommaConcat(TOP, k + ": ", t);
    PairTight(k, t);
  }

  lemma WholeIsPiece(t: string)
    requires Whole(t)
    ensures Piece(t)
  {
    assert Run(Scan(0, NONE), t) == TOP;
  }

  // ---- flow maps ----

  lemma {:induction false} JoinSteady(ts: seq<string>)
    requires forall t :: t in ts ==> Whole(t)
    ensures Steady(Join(ts)) && '\n' !in Join(ts)
  {
    if ts == [] {
      forall d: nat ensures Run(Scan(d, NONE), "") == Scan(d, NONE) && Inside(Scan(d, NONE), "") {}
    } else if |ts| == 1 {
      assert ts[0] in ts;
    } else {
      var rest := Join(ts[1..]);
      assert ts[0] in ts;
      forall t | t in ts[1..] ensures t in ts {}
      JoinSteady(ts[1..]);
      SteadyConcat(ts[0], ", ");
      SteadyConcat(ts[0] + ", ", rest);
    }
  }

  lemma SteadyConcat(a: string, b: string)
    requires Steady(a) && (Steady(b) || Plain(b))
    ensures Steady(a + b)
  {
    forall d: nat ensures Run(Scan(d, NONE), a + b) == Scan(d, NONE) && (d > 0 ==> Inside(Scan(d, NONE), a + b)) {
      RunConcat(Scan(d, NONE), a, b);
      InsideConcat(Scan(d, NONE), a, b);
      if Plain(b) { PlainRun(Scan(d, NONE), b); }
    }
  }

  /** Closing a brace comes back to the depth before it. */
  lemma ClosesBrace(d: nat, s: string)
    requires Run(Scan(d + 1, NONE), s) == Scan(d + 1, NONE) && Inside(Scan(d + 1, NONE), s)
    ensures Run(Scan(d + 1, NONE), s + "}") == Scan(d, NONE) && Inside(Scan(d + 1, NONE), s + "}")
  {
    var up := Scan(d + 1, NONE);
    RunConcat(up, s, "}");
    InsideConcat(up, s, "}");
    assert "}"[1..] == [];
    assert Run(Step(up, '}'), []) == Scan(d, NONE) && Inside(Step(up, '}'), []);
  }

  lemma BraceAt(d: nat, s: string)
    requires Steady(s)
    ensures var t := "{" + s + "}"; Run(Scan(d, NONE), t) == Scan(d, NONE) && (d > 0 ==> Inside(Scan(d, NONE), t))
  {
    assert Run(Scan(d + 1, NONE), s) == Scan(d + 1, NONE) && Inside(Scan(d + 1, NONE), s);
    ClosesBrace(d, s);
    OpensBrace("{" + s + "}", s, d);
  }

  lemma OpensBrace(t: string, s: string, d: nat)
    requires t == "{" + s + "}" && Run(Scan(d + 1, NONE), s + "}") == Scan(d, NONE)
        && Inside(Scan(d + 1, NONE), s + "}")
    ensures Run(Scan(d, NONE), t) == Scan(d, NONE) && (d > 0 ==> Inside(Scan(d, NONE), t))
  {
    BracedTail(t, s);
    assert Step(Scan(d, NONE), '{') == Scan(d + 1, NONE);
  }

  /** Braces around steady text make readable text. */
  lemma BracedReadable(s: string)
    requires Steady(s) && '\n' !in s
    ensures Readable("{" + s + "}") && Braced("{" + s + "}") && ("{" + s + "}")[1..|s| + 1] == s
  {
    BracedShape(s);
    BracedSteady(s);
    BraceInside(s);
    BracedQuiet(s);
  }

  lemma BraceInside(s: string)
    requires Steady(s)
    ensures Inside(Scan(1, NONE), s + "}")
  {
    assert Run(Scan(1, NONE), s) == Scan(1, NONE) && Inside(Scan(1, NONE), s);
    ClosesBrace(0, s);
  }

  lemma BracedShape(s: string)
    requires '\n' !in s
    ensures Tight("{" + s + "}") && '\n' !in "{" + s + "}" && Braced("{" + s + "}") && ("{" + s + "}")[1..|s| + 1] == s
  {}

  lemma BracedSteady(s: string)
    requires Steady(s)
    ensures Steady("{" + s + "}")
  {
    var t := "{" + s + "}";
    forall d: nat ensures Run(Scan(d, NONE), t) == Scan(d, NONE)
        && (d > 0 ==> Inside(Scan(d, NONE), t)) { BraceAt(d, s); }
  }

  lemma BracedQuiet(s: string)
    requires Inside(Scan(1, NONE), s + "}")
    ensures NoTopComma(TOP, "{" + s + "}") && Quiet(' ', TOP, "{" + s + "}")
  {
    BracedTail("{" + s + "}", s);
    OpenedQuiet("{" + s + "}");
  }

  lemma BracedTail(t: string, s: string)
    requires t == "{" + s + "}"
    ensures t != [] && t[0] == '{' && t[1..] == s + "}"
  {}

  lemma OpenedQuiet(t: string)
    requires t != [] && t[0] == '{' && Inside(Scan(1, NONE), t[1..])
    ensures NoTopComma(TOP, t) && Quiet(' ', TOP, t)
  {
    assert Step(TOP, '{') == Scan(1, NONE);
    InsideIsQuiet('{', Scan(1, NONE), t[1..]);
  }

  function Spaced(ts: seq<string>): seq<string> { seq(|ts|, i requires 0 <= i < |ts| => " " + ts[i]) }

  /** Splitting a join at commas gives the parts back, the later ones after a space. */
  lemma {:induction false} SplitJoin(ts: seq<string>, cur: string)
    requires ts != [] && forall t :: t in ts ==> Piece(t)
    ensures SplitFrom(Join(ts), TOP, cur) == [cur + ts[0]] + Spaced(ts[1..])
  {
    var t := ts[0];
    assert t in ts;
    if |ts| == 1 {
      SplitSkips(t, "", TOP, cur);
      assert t + "" == t;
      assert Spaced(ts[1..]) == [];
    } else {
      forall u | u in ts[1..] ensures u in ts {}
      SplitJoin(ts[1..], " ");
      SplitComma(t, Join(ts[1..]), cur);
      JoinCons(ts);
      SpacedCons(ts[1..]);
    }
  }

  lemma JoinCons(ts: seq<string>)
    requires |ts| > 1
    ensures Join(ts) == ts[0] + (", " + Join(ts[1..]))
  {
    assert ts[0] + ", " + Join(ts[1..]) == ts[0] + (", " + Join(ts[1..]));
  }

  lemma SpacedCons(ts: seq<string>)
    requires ts != []
    ensures Spaced(ts) == [" " + ts[0]] + Spaced(ts[1..])
  {}

  lemma SplitComma(t: string, rest: string, cur: string)
    requires Piece(t)
    ensures SplitFrom(t + (", " + rest), TOP, cur) == [cur + t] + SplitFrom(rest, TOP, " ")
  {
    SplitSkips(t, ", " + rest, TOP, cur);
    AfterComma(rest, cur + t);
  }

  lemma AfterComma(rest: string, cur: string)
    ensures SplitFrom(", " + rest, TOP, cur) == [cur] + SplitFrom(rest, TOP, " ")
  {
    var more := " " + rest;
    assert (", " + rest)[1..] == more && more[1..] == rest;
    assert [] + [' '] == " ";
    assert SplitFrom(more, TOP, []) == SplitFrom(rest, TOP, " ");
  }

  lemma PartPiece(p: Part, fl: FloatTest)
    requires PartOk(p)
    ensures Piece(PartText(p, fl))
  {
    if p.Nested? {
      PartWhole(p, fl);
      WholeIsPiece(PartText(p, fl));
    } else {
      ScalarReads(p.pair.val, fl);
      WholeIsPiece(Scalar(p.pair.val, fl));
      PairPiece(p.pair.key, Scalar(p.pair.val, fl));
    }
  }

  lemma PartWhole(p: Part, fl: FloatTest)
    requires PartOk(p) && MapKey(p.pair.key)
    ensures Whole(PartText(p, fl))
  {
    FlatWhole(p.pair, fl);
    if p.Nested? {
      NestedText(p.outer, p.pair, fl);
      NestedWhole(p.outer, PairText(p.pair, fl));
    }
  }

  lemma FlatWhole(q: Pair, fl: FloatTest)
    requires MapKey(q.key) && ValOk(q.val)
    ensures Whole(PairText(q, fl))
  {
    ScalarReads(q.val, fl);
    PairWhole(q.key, Scalar(q.val, fl));
  }

  lemma NestedWhole(outer: string, inner: string)
    requires KeyOk(outer) && Whole(inner)
    ensures Whole(outer + ": " + ("{" + inner + "}"))
  {
    BracedReadable(inner);
    PairReadable(outer, "{" + inner + "}");
  }

  lemma FoldPairsFlat(piece: string, more: seq<string>, limit: nat, prefix: string, pm: ProxyMap, key: string,
        val: string)
    requires |piece| < limit && forall q :: q in more ==> |q| < limit
    requires TrimSpace(piece) != "" && SplitKV(TrimSpace(piece)) == KV(key, val) && Tight(val) && !("{" <= val)
    ensures FoldPairs([piece] + more, limit, prefix, pm) ==
        FoldPairs(more, limit, prefix, pm[Dotted(prefix, key) := Unquote(val)])
  {
    assert ([piece] + more)[1..] == more;
    TrimTight(val);
  }

  lemma FoldPairsNested(piece: string, more: seq<string>, limit: nat, prefix: string, pm: ProxyMap, key: string,
        val: string, next: ProxyMap)
    requires |piece| < limit && forall q :: q in more ==> |q| < limit
    requires TrimSpace(piece) != "" && SplitKV(TrimSpace(piece)) == KV(key, val) && Tight(val) && "{" <= val
    requires FoldFlow(val, Dotted(prefix, key), pm) == Good(next)
    ensures FoldPairs([piece] + more, limit, prefix, pm) == FoldPairs(more, limit, prefix, next)
  {
    assert ([piece] + more)[1..] == more;
    TrimTight(val);
  }

  lemma FoldFlowOpens(s: string, inner: string, prefix: string, pm: ProxyMap)
    requires s == "{" + inner + "}"
    ensures forall p :: p in SplitTopLevel(inner) ==> |p| < |s|
    ensures FoldFlow(s, prefix, pm) == FoldPairs(SplitTopLevel(inner), |s|, prefix, pm)
  {
    TrimTight(s);
    assert s[1..|s| - 1] == inner;
    PiecesShorter(inner, TOP, []);
  }

  /** One part of a flow map, read back. */
  lemma PartReads(piece: string, p: Part, more: seq<string>, limit: nat, prefix: string, pm: ProxyMap, fl: FloatTest)
    requires PartOk(p) && TrimSpace(piece) == PartText(p, fl)
    requires |piece| < limit && forall q :: q in more ==> |q| < limit
    ensures var e := PartEntry(prefix, p);
      FoldPairs([piece] + more, limit, prefix, pm) == FoldPairs(more, limit, prefix, pm[e.key := e.val])
  {
    PartPiece(p, fl);
    match p
    case Flat(q) =>
      var s := Scalar(q.val, fl);
      ScalarReads(q.val, fl);
      QuietAnyStart(s);
      KVReads(q.key, s);
      FoldPairsFlat(piece, more, limit, prefix, pm, q.key, s);
    case Nested(outer, q) =>
      var val := "{" + PairText(q, fl) + "}";
      NestedSplits(outer, q, fl);
      NestedReads(q, Dotted(prefix, outer), pm, fl);
      FoldPairsNested(piece, more, limit, prefix, pm, outer, val, pm[Dotted(Dotted(prefix, outer), q.key) := q.val]);
  }

  lemma NestedSplits(outer: string, q: Pair, fl: FloatTest)
    requires KeyOk(outer) && MapKey(q.key) && ValOk(q.val)
    ensures var val := "{" + PairText(q, fl) + "}";
      SplitKV(PartText(Nested(outer, q), fl)) == KV(outer, val) && Tight(val) && "{" <= val
  {
    var inner := PairText(q, fl);
    PartWhole(Flat(q), fl);
    BracedSplits(outer, inner);
    NestedText(outer, q, fl);
  }

  lemma NestedText(outer: string, q: Pair, fl: FloatTest)
    ensures PartText(Nested(outer, q), fl) == outer + ": " + ("{" + PairText(q, fl) + "}")
  {}

  lemma BracedSplits(outer: string, inner: string)
    requires KeyOk(outer) && Whole(inner)
    ensures SplitKV(outer + ": " + ("{" + inner + "}")) == KV(outer, "{" + inner + "}")
    ensures Tight("{" + inner + "}") && "{" <= "{" + inner + "}"
  {
    BracedReadable(inner);
    QuietAnyStart("{" + inner + "}");
    KeySplits(outer, "{" + inner + "}");
  }

  lemma SingleSplit(t: string)
    requires Piece(t)
    ensures SplitTopLevel(t) == [t]
  {
    SplitJoin([t], "");
    assert Spaced([t][1..]) == [] && "" + t == t;
  }

  lemma NestedReads(q: Pair, prefix: string, pm: ProxyMap, fl: FloatTest)
    requires MapKey(q.key) && ValOk(q.val)
    ensures FoldFlow("{" + PairText(q, fl) + "}", prefix, pm) == Good(pm[Dotted(prefix, q.key) := q.val])
  {
    var inner, s := PairText(q, fl), Scalar(q.val, fl);
    ScalarReads(q.val, fl);
    PairWhole(q.key, s);
    TrimTight(inner);
    WholeIsPiece(inner);
    SingleSplit(inner);
    QuietAnyStart(s);
    KVReads(q.key, s);
    FoldFlowOpens("{" + inner + "}", inner, prefix, pm);
    FoldPairsFlat(inner, [], |inner| + 2, prefix, pm, q.key, s);
    assert [inner] + [] == [inner];
  }

  /** The pieces of a split, trimmed, are the printed parts. */
  ghost predicate Matches(pieces: seq<string>, ps: seq<Part>, limit: nat, fl: FloatTest) {
    && |pieces| == |ps| && (forall p :: p in pieces ==> |p| < limit)
    && forall i :: 0 <= i < |ps| ==> PartOk(ps[i]) && TrimSpace(pieces[i]) == PartText(ps[i], fl)
  }

  lemma MatchesTail(pieces: seq<string>, ps: seq<Part>, limit: nat, fl: FloatTest)
    requires Matches(pieces, ps, limit, fl) && ps != []
    ensures Matches(pieces[1..], ps[1..], limit, fl) && |pieces[0]| < limit
  {
    forall p | p in pieces[1..] ensures p in pieces {}
    assert pieces[0] in pieces;
  }

  lemma {:induction false} PiecesRead(pieces: seq<string>, ps: seq<Part>, limit: nat, prefix: string, pm: ProxyMap,
        fl: FloatTest)
    requires Matches(pieces, ps, limit, fl)
    ensures FoldPairs(pieces, limit, prefix, pm) == Good(InsertAll(pm, PartEntries(prefix, ps)))
    decreases ps
  {
    if ps == [] {
      assert pieces == [] && PartEntries(prefix, ps) == [];
    } else {
      var e := PartEntry(prefix, ps[0]);
      MatchesTail(pieces, ps, limit, fl);
      PiecesRead(pieces[1..], ps[1..], limit, prefix, pm[e.key := e.val], fl);
      PieceRead(pieces, ps, limit, prefix, pm, fl);
      EntriesInsert(pm, prefix, ps);
    }
  }

  lemma PieceRead(pieces: seq<string>, ps: seq<Part>, limit: nat, prefix: string, pm: ProxyMap, fl: FloatTest)
    requires Matches(pieces, ps, limit, fl) && ps != []
    ensures forall p :: p in pieces[1..] ==> |p| < limit
    ensures var e := PartEntry(prefix, ps[0]);
      FoldPairs(pieces, limit, prefix, pm) == FoldPairs(pieces[1..], limit, prefix, pm[e.key := e.val])
  {
    MatchesTail(pieces, ps, limit, fl);
    PartReads(pieces[0], ps[0], pieces[1..], limit, prefix, pm, fl);
    assert pieces == [pieces[0]] + pieces[1..];
  }

  lemma EntriesInsert(pm: ProxyMap, prefix: string, ps: seq<Part>)
    requires ps != []
    ensures var e := PartEntry(prefix, ps[0]);
      InsertAll(pm, PartEntries(prefix, ps)) == InsertAll(pm[e.key := e.val], PartEntries(prefix, ps[1..]))
  {
    EntriesSplit(prefix, ps);
  }

  lemma EntriesSplit(prefix: string, ps: seq<Part>)
    requires ps != []
    ensures PartEntries(prefix, ps) == [PartEntry(prefix, ps[0])] + PartEntries(prefix, ps[1..])
    ensures PartEntries(prefix, ps)[1..] == PartEntries(prefix, ps[1..])
  {}

  /** A printed flow map reads back as its entries in order. */
  lemma FlowReads(ps: seq<Part>, prefix: string, pm: ProxyMap, fl: FloatTest)
    requires ps != [] && forall p :: p in ps ==> PartOk(p)
    ensures FoldFlow(MapText(ps, fl), prefix, pm) == Good(InsertAll(pm, PartEntries(prefix, ps)))
  {
    PiecesMatch(ps, fl);
    MapReads(MapText(ps, fl), JoinParts(ps, fl), ps, prefix, pm, fl);
  }

  lemma MapReads(t: string, inner: string, ps: seq<Part>, prefix: string, pm: ProxyMap, fl: FloatTest)
    requires t == "{" + inner + "}" && Matches(SplitTopLevel(inner), ps, |t|, fl)
    ensures FoldFlow(t, prefix, pm) == Good(InsertAll(pm, PartEntries(prefix, ps)))
  {
    FoldFlowOpens(t, inner, prefix, pm);
    PiecesRead(SplitTopLevel(inner), ps, |t|, prefix, pm, fl);
  }

  /** Keys on one line that close no bracket they did not open always make legible text. */
  lemma FlowLegible(ps: seq<Part>, fl: FloatTest)
    requires forall p :: p in ps ==> PartOk(p) && MapKey(p.pair.key)
    ensures Legible(MapText(ps, fl))
  {
    PartsWhole(ps, fl);
    JoinSteady(PartTexts(ps, fl));
    BracedReadable(JoinParts(ps, fl));
  }

  lemma PiecesMatch(ps: seq<Part>, fl: FloatTest)
    requires ps != [] && forall p :: p in ps ==> PartOk(p)
    ensures Matches(SplitTopLevel(JoinParts(ps, fl)), ps, |"{" + JoinParts(ps, fl) + "}"|, fl)
  {
    var pieces := SplitTopLevel(JoinParts(ps, fl));
    PiecesShorter(JoinParts(ps, fl), TOP, []);
    forall i | 0 <= i < |ps| ensures |pieces| == |ps| && PartOk(ps[i]) && TrimSpace(pieces[i]) == PartText(ps[i], fl) {
      assert ps[i] in ps;
      PieceOf(ps, i, fl);
    }
    PieceOf(ps, 0, fl);
  }

  lemma PartsPiece(ps: seq<Part>, fl: FloatTest)
    requires forall p :: p in ps ==> PartOk(p)
    ensures forall t :: t in PartTexts(ps, fl) ==> Piece(t)
  {
    var ts := PartTexts(ps, fl);
    forall t | t in ts ensures Piece(t) {
      var i :| 0 <= i < |ts| && ts[i] == t;
      assert ps[i] in ps;
      PartPiece(ps[i], fl);
    }
  }

  lemma PartsWhole(ps: seq<Part>, fl: FloatTest)
    requires forall p :: p in ps ==> PartOk(p) && MapKey(p.pair.key)
    ensures forall t :: t in PartTexts(ps, fl) ==> Whole(t)
  {
    var ts := PartTexts(ps, fl);
    forall t | t in ts ensures Whole(t) {
      var i :| 0 <= i < |ts| && ts[i] == t;
      assert ps[i] in ps;
      PartWhole(ps[i], fl);
    }
  }

  lemma JoinPieces(ts: seq<string>)
    requires ts != [] && forall t :: t in ts ==> Piece(t)
    ensures SplitTopLevel(Join(ts)) == [ts[0]] + Spaced(ts[1..])
  {
    SplitJoin(ts, "");
    assert "" + ts[0] == ts[0];
  }

  lemma PieceOf(ps: seq<Part>, i: nat, fl: FloatTest)
    requires i < |ps| && forall p :: p in ps ==> PartOk(p)
    ensures var pieces := SplitTopLevel(JoinParts(ps, fl));
      |pieces| == |ps| && TrimSpace(pieces[i]) == PartText(ps[i], fl)
  {
    var ts := PartTexts(ps, fl);
    PartsPiece(ps, fl);
    JoinPieces(ts);
    assert ts[i] in ts;
    SpacedPiece(ts, i);
  }

  lemma SpacedPiece(ts: seq<string>, i: nat)
    requires i < |ts| && Tight(ts[i])
    ensures TrimSpace(([ts[0]] + Spaced(ts[1..]))[i]) == ts[i]
  {
    TrimTight(ts[i]);
    if i > 0 { assert ([ts[0]] + Spaced(ts[1..]))[i] == " " + ts[i]; }
  }

  // ---- merging under a key ----

  lemma UnderInsert(prefix: string, sub: ProxyMap, k: string, v: string)
    ensures Under(prefix, sub[k := v]) == Under(prefix, sub)[prefix + "." + k := v]
  {
    var a, b := Under(prefix, sub[k := v]), Under(prefix, sub)[prefix + "." + k := v];
    assert Joined(prefix, k)[|prefix| + 1..] == k;
    forall key ensures key in a <==> key in b {
      if key in a {
        var j :| j in sub[k := v].Keys && key == Joined(prefix, j);
        assert j == k || j in sub.Keys;
      }
      if key in b && key != Joined(prefix, k) {
        var j :| j in sub.Keys && key == Joined(prefix, j);
        assert j in sub[k := v].Keys;
      }
      if key == Joined(prefix, k) { assert k in sub[k := v].Keys; }
    }
    forall key | key in a ensures a[key] == b[key] {
      var j :| j in sub[k := v].Keys && key == Joined(prefix, j);
      assert key[|prefix| + 1..] == j;
    }
  }

  function Prepend(prefix: string, es: seq<Pair>): seq<Pair> {
    seq(|es|, i requires 0 <= i < |es| => Pair(prefix + "." + es[i].key, es[i].val))
  }

  lemma {:induction false} UnderAll(pm: ProxyMap, prefix: string, sub: ProxyMap, es: seq<Pair>)
    ensures pm + Under(prefix, InsertAll(sub, es)) == InsertAll(pm + Under(prefix, sub), Prepend(prefix, es))
    decreases es
  {
    if es != [] {
      var next := sub[es[0].key := es[0].val];
      UnderInsert(prefix, sub, es[0].key, es[0].val);
      MergeLast(pm, Under(prefix, sub), prefix + "." + es[0].key, es[0].val);
      UnderAll(pm, prefix, next, es[1..]);
      PrependSplit(prefix, es);
    } else {
      assert Prepend(prefix, es) == [];
    }
  }

  lemma MergeLast(a: ProxyMap, b: ProxyMap, k: string, v: string)
    ensures a + b[k := v] == (a + b)[k := v]
  {}

  lemma PrependSplit(prefix: string, es: seq<Pair>)
    requires es != []
    ensures Prepend(prefix, es) == [Pair(prefix + "." + es[0].key, es[0].val)] + Prepend(prefix, es[1..])
    ensures Prepend(prefix, es)[1..] == Prepend(prefix, es[1..])
  {}

  lemma PrependParts(k: string, ps: seq<Part>)
    requires k != "" && forall p :: p in ps ==> PartOk(p)
    ensures Prepend(k, PartEntries("", ps)) == PartEntries(k, ps)
  {
    forall i | 0 <= i < |ps| ensures Prepend(k, PartEntries("", ps))[i] == PartEntry(k, ps[i]) {
      assert ps[i] in ps;
      PrependPart(k, ps[i]);
    }
  }

  lemma PrependPart(k: string, p: Part)
    requires k != "" && (p.Nested? ==> p.outer != "")
    ensures var e := PartEntry("", p); Pair(k + "." + e.key, e.val) == PartEntry(k, p)
  {
    if p.Nested? {
      var o, q := p.outer, p.pair.key;
      assert k + "." + (o + "." + q) == (k + "." + o) + "." + q;
    }
  }

  // ---- block lines ----

  ghost predicate ItemReads(it: Item, es: seq<Pair>, fl: FloatTest) {
    && KeyOk(it.key) && Legible(ItemText(it, fl))
    && forall pm :: BlockStep(Block(pm, []), Spaces(4) + (it.key + ": " + ItemText(it, fl))) ==
         Good(Block(InsertAll(pm, es), []))
  }

  lemma {:induction false} IndentPadded(n: nat, s: string)
    requires Tight(s)
    ensures IndentOf(Spaces(n) + s) == n
  {
    if n == 0 {
      assert Spaces(0) + s == s;
    } else {
      assert (Spaces(n) + s)[1..] == Spaces(n - 1) + s;
      IndentPadded(n - 1, s);
    }
  }

  lemma LineFacts(k: string, t: string, n: nat)
    requires KeyOk(k) && Legible(t)
    ensures var s := k + ": " + t;
      && TrimSpace(Spaces(n) + s) == s && IndentOf(Spaces(n) + s) == n && !Skipped(s) && !IsSeqItem(s) && !("{" <= s)
      && SplitKV(s) == KV(k, t)
  {
    PairLegible(k, t);
    TrimPadded(n, k + ": " + t);
    IndentPadded(n, k + ": " + t);
    QuietAnyStart(t);
    KeySplits(k, t);
    assert k[0] in k;
    assert (k + ": " + t)[0] == k[0];
  }

  lemma ScalarItemReads(k: string, t: string, v: string, it: Item, fl: FloatTest)
    requires KeyOk(k) && it.key == k && ItemText(it, fl) == t && Legible(t) && Unquote(t) == v && !("{" <= t)
    ensures ItemReads(it, [Pair(k, v)], fl)
  {
    LineFacts(k, t, 4);
    forall pm ensures BlockStep(Block(pm, []), Spaces(4) + (k + ": " + t)) ==
        Good(Block(InsertAll(pm, [Pair(k, v)]), [])) {
      assert [Pair(k, v)][1..] == [];
    }
  }

  lemma MapLine(pm: ProxyMap, k: string, t: string, sub: ProxyMap)
    requires KeyOk(k) && Legible(t) && "{" <= t && ParseFlow(t) == Good(sub)
    ensures BlockStep(Block(pm, []), Spaces(4) + (k + ": " + t)) == Good(Block(pm + Under(k, sub), []))
  {
    LineFacts(k, t, 4);
  }

  lemma OptsItemReads(k: string, ps: seq<Part>, fl: FloatTest)
    requires KeyOk(k) && ps != [] && (forall p :: p in ps ==> PartOk(p)) && Legible(MapText(ps, fl))
    ensures ItemReads(MapItems(k, ps, fl)[0], PartEntries(k, ps), fl)
  {
    var t := "{" + JoinParts(ps, fl) + "}";
    var sub := InsertAll(map[], PartEntries("", ps));
    FlowReads(ps, "", map[], fl);
    forall pm ensures BlockStep(Block(pm, []), Spaces(4) + (k + ": " + t)) ==
        Good(Block(InsertAll(pm, PartEntries(k, ps)), [])) {
      MapLine(pm, k, t, sub);
      MergedEntries(pm, k, ps);
    }
  }

  lemma MergedEntries(pm: ProxyMap, k: string, ps: seq<Part>)
    requires k != "" && forall p :: p in ps ==> PartOk(p)
    ensures pm + Under(k, InsertAll(map[], PartEntries("", ps))) == InsertAll(pm, PartEntries(k, ps))
  {
    UnderAll(pm, k, map[], PartEntries("", ps));
    PrependParts(k, ps);
    assert Under(k, map[]) == map[] && pm + map[] == pm;
  }

  lemma {:induction false} NonEmptyOk(ps: seq<Pair>, host: string)
    requires forall p :: p in ps ==> PairOk(p, host)
    ensures forall q :: q in NonEmptyParts(ps, host) ==> PartOk(q)
  {
    if ps != [] {
      assert ps[|ps| - 1] in ps;
      forall p | p in ps[..|ps| - 1] ensures p in ps {}
      NonEmptyOk(ps[..|ps| - 1], host);
    }
  }

  lemma HostKeys()
    ensures KeyOk("headers") && MapKey("Host")
  {
    LettersAreKey("headers");
    LettersAreKey("Host");
    PlainKey("Host");
  }

  lemma LettersAreKey(k: string)
    requires k != "" && forall c :: c in k ==> 'a' <= c <= 'z' || 'A' <= c <= 'Z'
    ensures KeyOk(k)
  {
    assert k[0] in k;
  }

  lemma FlagReadable(on: bool)
    ensures var t := if on then "true" else "false"; Readable(t) && Unquote(t) == t && !("{" <= t)
  {
    WordReadable(if on then "true" else "false");
  }

  /** Letters need no quoting and pass every scanner. */
  lemma WordReadable(t: string)
    requires t != "" && forall c :: c in t ==> 'a' <= c <= 'z'
    ensures Readable(t) && Unquote(t) == t && !("{" <= t)
  {
    assert t[0] in t && t[|t| - 1] in t;
    assert Plain(t) && ',' !in t && '#' !in t && Tight(t);
    forall d: nat ensures Run(Scan(d, NONE), t) == Scan(d, NONE) && (d > 0 ==> Inside(Scan(d, NONE), t)) {
      PlainRun(Scan(d, NONE), t);
    }
    PlainRun(TOP, t);
    PlainQuiet(' ', TOP, t);
    TrimTight(t);
  }

  /** The single item of a field, when it prints one, reads back as the field's entries. */
  lemma FieldReads(f: Field, fl: FloatTest)
    requires FieldOk(f, fl)
    ensures FieldItems(f, fl) == [] ==> FieldEntries(f) == []
    ensures FieldItems(f, fl) != [] ==> |FieldItems(f, fl)| == 1 && ItemReads(FieldItems(f, fl)[0], FieldEntries(f), fl)
  {
    match f
    case Text(k, v) =>
      ScalarReads(v, fl);
      ScalarItemReads(k, Scalar(v, fl), v, Item(k, v, false), fl);
    case Flag(k, on) =>
      var t := if on then "true" else "false";
      FlagReadable(on);
      ScalarItemReads(k, t, t, Item(k, t, true), fl);
    case Opts(k, pairs, host) =>
      NonEmptyOk(pairs, host);
      HostKeys();
      if OptsParts(pairs, host) != [] { OptsItemReads(k, OptsParts(pairs, host), fl); }
  }

  // ---- one block ----

  function ItemBody(it: Item, fl: FloatTest): string { it.key + ": " + ItemText(it, fl) }

  /** The continuation lines of a block as the reader keeps them. */
  function Padded(its: seq<Item>, fl: FloatTest): seq<string> {
    seq(|its|, i requires 0 <= i < |its| => Spaces(4) + ItemBody(its[i], fl))
  }

  ghost predicate AllRead(its: seq<Item>, fl: FloatTest) {
    forall it :: it in its ==> KeyOk(it.key) && Legible(ItemText(it, fl))
  }

  lemma PaddedConcat(a: seq<Item>, b: seq<Item>, fl: FloatTest)
    ensures Padded(a + b, fl) == Padded(a, fl) + Padded(b, fl)
  {
    var x, y := Padded(a + b, fl), Padded(a, fl) + Padded(b, fl);
    forall i | 0 <= i < |x| ensures x[i] == y[i] {
      assert x[i] == Spaces(4) + ItemBody((a + b)[i], fl);
      if i >= |a| { assert (a + b)[i] == b[i - |a|] && y[i] == Padded(b, fl)[i - |a|]; }
    }
  }

  lemma FieldFold(f: Field, fl: FloatTest, pm: ProxyMap)
    requires FieldOk(f, fl)
    ensures AllRead(FieldItems(f, fl), fl)
    ensures BlockFold(Block(pm, []), Padded(FieldItems(f, fl), fl)) == Good(Block(InsertAll(pm, FieldEntries(f)), []))
  {
    FieldReads(f, fl);
    var its := FieldItems(f, fl);
    if its == [] {
      assert Padded(its, fl) == [];
    } else {
      OneLine(its[0], FieldEntries(f), fl, pm);
      assert its == [its[0]];
    }
  }

  lemma OneLine(it: Item, es: seq<Pair>, fl: FloatTest, pm: ProxyMap)
    requires ItemReads(it, es, fl)
    ensures BlockFold(Block(pm, []), Padded([it], fl)) == Good(Block(InsertAll(pm, es), []))
  {
    assert Padded([it], fl) == [Spaces(4) + ItemBody(it, fl)];
    assert Padded([it], fl)[1..] == [];
  }

  lemma {:induction false} BlockReads(fs: seq<Field>, fl: FloatTest, pm: ProxyMap)
    requires forall f :: f in fs ==> FieldOk(f, fl)
    ensures AllRead(BlockItems(fs, fl), fl)
    ensures BlockFold(Block(pm, []), Padded(BlockItems(fs, fl), fl)) == Good(Block(InsertAll(pm, BlockEntries(fs)), []))
  {
    if fs == [] {
      assert Padded([], fl) == [];
    } else {
      var n := |fs| - 1;
      var f := fs[n];
      assert f in fs;
      forall g | g in fs[..n] ensures g in fs {}
      BlockReads(fs[..n], fl, pm);
      var a, b := BlockItems(fs[..n], fl), FieldItems(f, fl);
      var mid := InsertAll(pm, BlockEntries(fs[..n]));
      FieldFold(f, fl, mid);
      InsertConcat(pm, BlockEntries(fs[..n]), FieldEntries(f));
      PaddedConcat(a, b, fl);
      BlockFoldConcat(Block(pm, []), Padded(a, fl), Padded(b, fl));
    }
  }

  lemma {:induction false} BlockFoldConcat(b: Block, x: seq<string>, y: seq<string>)
    ensures BlockFold(b, x + y) ==
      match BlockFold(b, x) case Bad => Bad case Good(n) => BlockFold(n, y)
    decreases x
  {
    if x == [] {
      assert x + y == y;
    } else {
      assert (x + y)[1..] == x[1..] + y;
      if BlockStep(b, x[0]).Good? { BlockFoldConcat(BlockStep(b, x[0]).value, x[1..], y); }
    }
  }
}
