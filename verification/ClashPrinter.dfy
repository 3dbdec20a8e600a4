/**
 The Clash YAML printer of `internal/exporter/clash.go`: scalar quoting, the ordered
 key/value builder and the block it renders. Whether Go's `strconv.ParseFloat` accepts a
 text only decides if it is quoted, so it is a parameter.
 */
module ClashPrinter {
  import opened Yaml
  import Compile

  type FloatTest = string -> bool

  predicate IsDigit(c: char) { '0' <= c <= '9' }

  predicate IsInteger(s: string) {
    var digits := if s != [] && (s[0] == '-' || s[0] == '+') then s[1..] else s;
    digits != [] && forall c :: c in digits ==> IsDigit(c)
  }

  const RESERVED := {"true", "false", "null", "yes", "no", "on", "off", "~"}

  /** A position that would be misread if the text were left bare. */
  predicate Breaks(s: string, i: nat)
    requires i < |s|
  {
    || s[i] in ",[]{}\"'\n\t\\"
    || (s[i] == ':' && (i + 1 == |s| || s[i + 1] == ' '))
    || (s[i] == '#' && i > 0 && s[i - 1] == ' ')
  }

  /** `needsQuote`. */
  predicate NeedsQuote(s: string, isFloat: FloatTest) {
    || s == "" || s != TrimSpace(s) || Compile.Lower(s) in RESERVED
    || (!IsInteger(s) && isFloat(s))
    || s[0] in "-?:,[]{}#&*!|>'\"%@` "
    || exists i :: 0 <= i < |s| && Breaks(s, i)
  }

  method NeedsQuoteScan(s: string, isFloat: FloatTest) returns (b: bool)
    ensures b == NeedsQuote(s, isFloat)
  {
    if s == "" || s != TrimSpace(s) || Compile.Lower(s) in RESERVED || (!IsInteger(s) && isFloat(s)) {
      return true;
    }
    if s[0] in "-?:,[]{}#&*!|>'\"%@` " {
      return true;
    }
    for i := 0 to |s|
      invariant forall j :: 0 <= j < i ==> !Breaks(s, j)
    {
      if Breaks(s, i) {
        return true;
      }
    }
    return false;
  }

  function Escaped(c: char): string {
    if c == '"' then "\\\"" else if c == '\\' then "\\\\"
    else if c == '\n' then "\\n" else if c == '\t' then "\\t" else [c]
  }

  function EscapeAll(s: string): string {
    if s == [] then [] else EscapeAll(s[..|s| - 1]) + Escaped(s[|s| - 1])
  }

  /** `yamlScalar`. */
  function Scalar(s: string, isFloat: FloatTest): string {
    if NeedsQuote(s, isFloat) then "\"" + EscapeAll(s) + "\"" else s
  }

  method YamlScalar(s: string, isFloat: FloatTest) returns (r: string)
    ensures r == Scalar(s, isFloat)
  {
    var quote := NeedsQuoteScan(s, isFloat);
    if !quote {
      return s;
    }
    var body := "";
    for i := 0 to |s|
      invariant body == EscapeAll(s[..i])
    {
      assert s[..i + 1][..i] == s[..i];
      body := body + Escaped(s[i]);
    }
    assert s[..|s|] == s;
    return "\"" + body + "\"";
  }

  // ---- what quoting is for ----

  /** Words a YAML reader takes for a boolean or null, in any case. */
  predicate Reserved(s: string) {
    var w := Compile.Lower(s);
    w == "true" || w == "false" || w == "null" || w == "yes" || w == "no" || w == "on" || w == "off" || w == "~"
  }

  /** Digits, after a sign or none. */
  predicate WholeNumber(s: string) {
    || (s != "" && forall c :: c in s ==> '0' <= c <= '9')
    || (|s| > 1 && (s[0] == '-' || s[0] == '+') && forall c :: c in s[1..] ==> '0' <= c <= '9')
  }

  lemma WholeNumberIs(s: string)
    ensures WholeNumber(s) <==> IsInteger(s)
  {
    if s != "" {
      assert s[0] in s;
      DigitsAre(s);
      DigitsAre(s[1..]);
    }
  }

  lemma DigitsAre(s: string)
    ensures (forall c :: c in s ==> '0' <= c <= '9') <==> forall c :: c in s ==> IsDigit(c)
  {}

  /** What a bare scalar must not be: empty, a word or a number of another type, or YAML syntax. */
  predicate Misread(s: string, isFloat: FloatTest) {
    || s == "" || IsSpace(s[0]) || IsSpace(s[|s| - 1]) || Reserved(s) || (isFloat(s) && !WholeNumber(s))
    || s[0] in ['-', '?', ':', '#', '&', '*', '!', '|', '>', '%', '@', '`']
    || (exists c :: c in s && c in [',', '[', ']', '{', '}', '"', '\'', '\n', '\t', '\\'])
    || s[|s| - 1] == ':'
    || exists i :: 0 < i < |s| && ((s[i - 1] == ':' && s[i] == ' ') || (s[i - 1] == ' ' && s[i] == '#'))
  }

  /** A text is quoted exactly when it would be misread bare; otherwise it is printed as it is. */
  lemma QuotedIffMisread(s: string, isFloat: FloatTest)
    ensures Misread(s, isFloat) ==> Scalar(s, isFloat) == "\"" + EscapeAll(s) + "\""
    ensures !Misread(s, isFloat) ==> Scalar(s, isFloat) == s
  {
    if Misread(s, isFloat) { MisreadNeedsQuote(s, isFloat); }
    if NeedsQuote(s, isFloat) { QuotedIsMisread(s, isFloat); }
  }

  lemma TightIsTrimmed(s: string)
    ensures s != "" ==> (s == TrimSpace(s) <==> !IsSpace(s[0]) && !IsSpace(s[|s| - 1]))
  {
    if s != "" && Tight(s) { TrimTight(s); }
    if s != "" && s == TrimSpace(s) { UntrimmedIsTight(s); }
  }

  lemma QuotedIsMisread(s: string, isFloat: FloatTest)
    requires NeedsQuote(s, isFloat)
    ensures Misread(s, isFloat)
  {
    TightIsTrimmed(s);
    WholeNumberIs(s);
    if s != "" {
      assert s[0] in s;
      if i :| 0 <= i < |s| && Breaks(s, i) {
        assert s[i] in s;
        if s[i] == ':' && i + 1 < |s| { assert s[i + 1 - 1] == ':' && s[i + 1] == ' '; }
      }
    }
  }

  lemma MisreadNeedsQuote(s: string, isFloat: FloatTest)
    requires Misread(s, isFloat)
    ensures NeedsQuote(s, isFloat)
  {
    TightIsTrimmed(s);
    WholeNumberIs(s);
    if s != "" {
      if c :| c in s && c in [',', '[', ']', '{', '}', '"', '\'', '\n', '\t', '\\'] {
        var i :| 0 <= i < |s| && s[i] == c;
        assert Breaks(s, i);
      } else if i :| 0 < i < |s| && ((s[i - 1] == ':' && s[i] == ' ') || (s[i - 1] == ' ' && s[i] == '#')) {
        assert Breaks(s, i - 1) || Breaks(s, i);
      } else if s[|s| - 1] == ':' {
        assert Breaks(s, |s| - 1);
      }
    }
  }

  // ---- what a quoted scalar denotes ----

  /** The character a backslash and this one stand for in double quotes (section 5.7 of YAML 1.2.2). */
  function EscapeOf(c: char): char {
    match c
    case 'n' => '\n'
    case 't' => '\t'
    case 'r' => '\r'
    case '0' => '\0'
    case _ => c
  }

  /** The text that double-quoted contents denote. */
  function Denotes(s: string): string {
    if s == [] then []
    else if s[0] == '\\' && |s| > 1 then [EscapeOf(s[1])] + Denotes(s[2..])
    else [s[0]] + Denotes(s[1..])
  }

  /** The next character begins no contents of its own: it is the second of an escape. */
  predicate Complete(s: string)
    decreases |s|
  {
    s == [] || (if s[0] == '\\' then |s| > 1 && Complete(s[2..]) else Complete(s[1..]))
  }

  lemma {:induction false} DenotesConcat(a: string, b: string)
    requires Complete(a)
    ensures Denotes(a + b) == Denotes(a) + Denotes(b) && (Complete(b) ==> Complete(a + b))
    decreases |a|
  {
    if a == [] {
      assert a + b == b;
    } else {
      var n := if a[0] == '\\' then 2 else 1;
      assert (a + b)[n..] == a[n..] + b && (a + b)[0] == a[0];
      if n == 2 { assert (a + b)[1] == a[1]; }
      DenotesConcat(a[n..], b);
    }
  }

  lemma EscapedDenotes(c: char)
    ensures Complete(Escaped(c)) && Denotes(Escaped(c)) == [c]
  {
    var e := Escaped(c);
    if |e| == 2 { assert e[2..] == []; } else { assert e[1..] == []; }
  }

  /** Any value printed in quotes denotes that value to a reader of YAML, whatever this program's own reader does. */
  lemma {:induction false} QuotedDenotes(s: string)
    ensures Complete(EscapeAll(s)) && Denotes(EscapeAll(s)) == s
  {
    if s != [] {
      var n := |s| - 1;
      QuotedDenotes(s[..n]);
      EscapedDenotes(s[n]);
      DenotesConcat(EscapeAll(s[..n]), Escaped(s[n]));
      assert s == s[..n] + [s[n]];
    }
  }

  // ---- flow maps ----

  datatype Pair = Pair(key: string, val: string)

  /** One rendered member of a flow map: a scalar, a scalar in a map of its own, or text as it stands. */
  datatype Part = Flat(pair: Pair) | Nested(outer: string, pair: Pair) | Verbatim(pair: Pair)

  function PairText(p: Pair, isFloat: FloatTest): string { p.key + ": " + Scalar(p.val, isFloat) }

  function PartText(p: Part, isFloat: FloatTest): string {
    match p
    case Flat(pair) => PairText(pair, isFloat)
    case Nested(outer, pair) => outer + ": {" + PairText(pair, isFloat) + "}"
    case Verbatim(pair) => pair.key + ": " + pair.val
  }

  /** Beside a host header `addOpts` takes a pair called `headers` for an already rendered map. */
  function PairPart(p: Pair, host: string): Part {
    if host != "" && p.key == "headers" then Verbatim(p) else Flat(p)
  }

  /** `addMap` and `addOpts` drop pairs without value. */
  function NonEmptyParts(ps: seq<Pair>, host: string): seq<Part> {
    if ps == [] then []
    else NonEmptyParts(ps[..|ps| - 1], host) + (if ps[|ps| - 1].val == "" then [] else [PairPart(ps[|ps| - 1], host)])
  }

  function OptsParts(ps: seq<Pair>, host: string): seq<Part> {
    NonEmptyParts(ps, host) + (if host == "" then [] else [Nested("headers", Pair("Host", host))])
  }

  function PartTexts(ps: seq<Part>, isFloat: FloatTest): seq<string> {
    seq(|ps|, i requires 0 <= i < |ps| => PartText(ps[i], isFloat))
  }

  /** `strings.Join` with a comma and a space. */
  function Join(ts: seq<string>): string {
    if ts == [] then "" else if |ts| == 1 then ts[0] else ts[0] + ", " + Join(ts[1..])
  }

  function JoinParts(ps: seq<Part>, isFloat: FloatTest): string { Join(PartTexts(ps, isFloat)) }

  // ---- the builder ----

  datatype Item = Item(key: string, val: string, raw: bool)

  function MapItems(key: string, parts: seq<Part>, isFloat: FloatTest): seq<Item> {
    if parts == [] then [] else [Item(key, "{" + JoinParts(parts, isFloat) + "}", true)]
  }

  function ItemText(it: Item, isFloat: FloatTest): string { if it.raw then it.val else Scalar(it.val, isFloat) }

  function ItemLine(it: Item, first: bool, isFloat: FloatTest): string {
    (if first then "  - " else "    ") + it.key + ": " + ItemText(it, isFloat)
  }

  function RenderItems(its: seq<Item>, isFloat: FloatTest): string {
    if its == [] then ""
    else RenderItems(its[..|its| - 1], isFloat) + ItemLine(its[|its| - 1], |its| == 1, isFloat) + "\n"
  }

  /** The loop over a map's pairs. */
  method RenderPairs(pairs: seq<Pair>, host: string, isFloat: FloatTest) returns (parts: seq<string>)
    ensures parts == PartTexts(NonEmptyParts(pairs, host), isFloat)
  {
    parts := [];
    for i := 0 to |pairs|
      invariant parts == PartTexts(NonEmptyParts(pairs[..i], host), isFloat)
    {
      assert pairs[..i + 1][..i] == pairs[..i];
      if pairs[i].val != "" {
        if host != "" && pairs[i].key == "headers" {
          parts := parts + ["headers" + ": " + pairs[i].val];
        } else {
          var scalar := YamlScalar(pairs[i].val, isFloat);
          parts := parts + [pairs[i].key + ": " + scalar];
        }
      }
    }
    assert pairs[..|pairs|] == pairs;
  }

  /** `clashKV`: three parallel slices filled in order. */
  class ClashKV {
    var keys: seq<string>
    var vals: seq<string>
    var raw: seq<bool>

    ghost predicate Valid()
      reads this
    {
      |keys| == |vals| == |raw|
    }

    ghost function Items(): (r: seq<Item>)
      requires Valid()
      reads this
    {
      seq(|keys|, i requires 0 <= i < |keys| && |keys| == |vals| == |raw| reads this => Item(keys[i], vals[i], raw[i]))
    }

    constructor ()
      ensures Valid() && Items() == []
    {
      keys, vals, raw := [], [], [];
    }

    method Append(it: Item)
      requires Valid()
      modifies this
      ensures Valid() && Items() == old(Items()) + [it]
    {
      keys, vals, raw := keys + [it.key], vals + [it.val], raw + [it.raw];
    }

    method Add(key: string, val: string)
      requires Valid()
      modifies this
      ensures Valid() && Items() == old(Items()) + [Item(key, val, false)]
    {
      Append(Item(key, val, false));
    }

    method AddIf(key: string, val: string)
      requires Valid()
      modifies this
      ensures Valid() && Items() == old(Items()) + (if val == "" then [] else [Item(key, val, false)])
    {
      if val != "" { Append(Item(key, val, false)); }
    }

    method AddBool(key: string, v: bool)
      requires Valid()
      modifies this
      ensures Valid() && Items() == old(Items()) + [Item(key, if v then "true" else "false", true)]
    {
      Append(Item(key, if v then "true" else "false", true));
    }

    /** `addOpts`, and `addMap` when there is no host. */
    method AddOpts(key: string, pairs: seq<Pair>, host: string, isFloat: FloatTest)
      requires Valid()
      modifies this
      ensures Valid() && Items() == old(Items()) + MapItems(key, OptsParts(pairs, host), isFloat)
    {
      var parts := RenderPairs(pairs, host, isFloat);
      if host != "" {
        var scalar := YamlScalar(host, isFloat);
        parts := parts + ["headers" + ": {" + ("Host" + ": " + scalar) + "}"];
      }
      assert parts == PartTexts(OptsParts(pairs, host), isFloat);
      if parts != [] { Append(Item(key, "{" + Join(parts) + "}", true)); }
    }

    method Render(isFloat: FloatTest) returns (text: string)
      requires Valid()
      ensures text == RenderItems(Items(), isFloat)
    {
      text := "";
      for i := 0 to |keys|
        invariant text == RenderItems(Items()[..i], isFloat)
      {
        var prefix := if i == 0 then "  - " else "    ";
        var val := vals[i];
        if !raw[i] { val := YamlScalar(val, isFloat); }
        assert Items()[..i + 1][..i] == Items()[..i];
        text := text + (prefix + keys[i] + ": " + val) + "\n";
      }
      assert Items()[..|keys|] == Items();
    }
  }
}
