/**
 The Clash YAML reader of `internal/importer/clash.go`: flow maps, block proxies and the
 `proxies:` section of a whole document, each proxy flattened to dotted keys.
 */
module ClashParser {
  import opened Yaml

  type ProxyMap = map<string, string>

  datatype Parsed<+T> = Good(value: T) | Bad

  function Dotted(prefix: string, key: string): string {
    if prefix == "" then key else prefix + "." + key
  }

  predicate Braced(s: string) { "{" <= s && s != [] && s[|s| - 1] == '}' && |s| >= 2 }

  /** `foldFlowMapping`. */
  function FoldFlow(s: string, prefix: string, pm: ProxyMap): Parsed<ProxyMap>
    decreases |s|, 1, 0
  {
    var t := TrimSpace(s);
    TrimShorter(s);
    if !Braced(t) then Bad
    else
      PiecesShorter(t[1..|t| - 1], TOP, []);
      FoldPairs(SplitTopLevel(t[1..|t| - 1]), |s|, prefix, pm)
  }

  /** The loop over the pairs of one flow map; every piece is shorter than the map. */
  function FoldPairs(pieces: seq<string>, limit: nat, prefix: string, pm: ProxyMap): Parsed<ProxyMap>
    requires forall p :: p in pieces ==> |p| < limit
    decreases limit, 0, |pieces|
  {
    if pieces == [] then Good(pm)
    else
      var pair := TrimSpace(pieces[0]);
      TrimShorter(pieces[0]);
      SplitKVShorter(pair);
      if pair == "" then FoldPairs(pieces[1..], limit, prefix, pm)
      else
        match SplitKV(pair)
        case NoKV => Bad
        case KV(key, v) =>
          var val := TrimSpace(v);
          TrimShorter(v);
          var dotted := Dotted(prefix, key);
          if "{" <= val then
            match FoldFlow(val, dotted, pm)
            case Bad => Bad
            case Good(next) => FoldPairs(pieces[1..], limit, prefix, next)
          else FoldPairs(pieces[1..], limit, prefix, if val == "" then pm else pm[dotted := Unquote(val)])
  }

  /** `foldFlowMapping` as written: a loop with a recursive call for nested maps. */
  method FoldFlowMapping(s: string, prefix: string, start: ProxyMap) returns (r: Parsed<ProxyMap>)
    ensures r == FoldFlow(s, prefix, start)
    decreases |s|
  {
    var t := TrimSpace(s);
    TrimShorter(s);
    if !Braced(t) {
      return Bad;
    }
    PiecesShorter(t[1..|t| - 1], TOP, []);
    var pieces := SplitTopLevelScan(t[1..|t| - 1]);
    var pm := start;
    for i := 0 to |pieces|
      invariant FoldFlow(s, prefix, start) == FoldPairs(pieces[i..], |s|, prefix, pm)
    {
      assert pieces[i..][1..] == pieces[i + 1..];
      var pair := TrimSpace(pieces[i]);
      TrimShorter(pieces[i]);
      SplitKVShorter(pair);
      if pair != "" {
        var kv := SplitYAMLKV(pair);
        if kv.NoKV? {
          return Bad;
        }
        var dotted := Dotted(prefix, kv.key);
        var val := TrimSpace(kv.val);
        TrimShorter(kv.val);
        if "{" <= val {
          var sub := FoldFlowMapping(val, dotted, pm);
          if sub.Bad? {
            return Bad;
          }
          pm := sub.value;
        } else if val != "" {
          pm := pm[dotted := Unquote(val)];
        }
      }
    }
    r := Good(pm);
  }

  function ParseFlow(s: string): Parsed<ProxyMap> { FoldFlow(s, "", map[]) }

  /** A sub-map's fields under a dotted prefix. */
  function Under(prefix: string, sub: ProxyMap): ProxyMap {
    map key | key in Prefixed(prefix, sub.Keys) :: sub[key[|prefix| + 1..]]
  }

  function Joined(prefix: string, k: string): string { prefix + "." + k }

  function Prefixed(prefix: string, keys: set<string>): (r: set<string>)
    ensures forall key :: key in r ==> |key| > |prefix| && key[|prefix| + 1..] in keys
  {
    set k | k in keys :: Joined(prefix, k)
  }

  // ---- block proxies ----

  /** The count of leading blanks. */
  function IndentOf(s: string): nat { if s != [] && Blank(s[0]) then 1 + IndentOf(s[1..]) else 0 }

  predicate IsSeqItem(t: string) { t == "-" || "- " <= t }

  datatype Frame = Frame(indent: nat, prefix: string)
  datatype Block = Block(pm: ProxyMap, stack: seq<Frame>)

  function Pop(stack: seq<Frame>, ind: nat): seq<Frame> {
    if stack != [] && ind <= stack[|stack| - 1].indent then Pop(stack[..|stack| - 1], ind) else stack
  }

  predicate Skipped(t: string) { t == "" || "#" <= t }

  /** One line of a block proxy. */
  function BlockStep(b: Block, raw: string): Parsed<Block> {
    var ind, ln := IndentOf(raw), TrimSpace(raw);
    if Skipped(ln) then Good(b)
    else
      var stack := Pop(b.stack, ind);
      var prefix := if stack == [] then "" else stack[|stack| - 1].prefix;
      if IsSeqItem(ln) && stack != [] then
        var item := Unquote(TrimSpace(ln[1..]));
        var prior := if prefix in b.pm then b.pm[prefix] else "";
        Good(Block(b.pm[prefix := if prior == "" then item else prior + "," + item], stack))
      else
        match SplitKV(ln)
        case NoKV => Good(Block(b.pm, stack))
        case KV(key, val) =>
          var dotted := Dotted(prefix, key);
          if val == "" then Good(Block(b.pm, stack + [Frame(ind, dotted)]))
          else if "{" <= val then
            match ParseFlow(val)
            case Bad => Bad
            case Good(sub) => Good(Block(b.pm + Under(dotted, sub), stack))
          else Good(Block(b.pm[dotted := Unquote(val)], stack))
  }

  function BlockFold(b: Block, lines: seq<string>): Parsed<Block>
    decreases lines
  {
    if lines == [] then Good(b)
    else
      match BlockStep(b, lines[0])
      case Bad => Bad
      case Good(next) => BlockFold(next, lines[1..])
  }

  function ParseBlock(lines: seq<string>): Parsed<ProxyMap> {
    match BlockFold(Block(map[], []), lines)
    case Bad => Bad
    case Good(b) => Good(b.pm)
  }

  method ParseBlockProxy(lines: seq<string>) returns (r: Parsed<ProxyMap>)
    ensures r == ParseBlock(lines)
  {
    var b := Block(map[], []);
    for i := 0 to |lines|
      invariant BlockFold(Block(map[], []), lines) == BlockFold(b, lines[i..])
    {
      assert lines[i..][1..] == lines[i + 1..];
      var step := BlockStep(b, lines[i]);
      if step.Bad? {
        return Bad;
      }
      b := step.value;
    }
    r := Good(b.pm);
  }

  // ---- the document ----

  /** `strings.Split` at newlines. */
  function LinesFrom(s: string, cur: string): seq<string> {
    if s == [] then [cur]
    else if s[0] == '\n' then [cur] + LinesFrom(s[1..], [])
    else LinesFrom(s[1..], cur + [s[0]])
  }

  function IndexOf(s: string, c: char): int {
    if s == [] then -1
    else if s[0] == c then 0
    else
      var r := IndexOf(s[1..], c);
      if r < 0 then -1 else r + 1
  }

  datatype Section = Missing | Inline(text: string) | Lines(rest: seq<string>)

  /** The top-level `proxies:` key. */
  function FindProxies(lines: seq<string>): Section {
    if lines == [] then Missing
    else
      var t := TrimSpace(lines[0]);
      if !Skipped(t) && IndentOf(lines[0]) == 0 && "proxies:" <= t then
        var rest := TrimSpace(t[8..]);
        if "[" <= rest then Inline(rest) else Lines(lines[1..])
      else FindProxies(lines[1..])
  }

  function SeqItems(frags: seq<string>): Parsed<seq<ProxyMap>> {
    if frags == [] then Good([])
    else
      var f := TrimSpace(frags[0]);
      if f == "" then SeqItems(frags[1..])
      else if !("{" <= f) then Bad
      else
        match ParseFlow(f)
        case Bad => Bad
        case Good(pm) =>
          match SeqItems(frags[1..])
          case Bad => Bad
          case Good(out) => Good([pm] + out)
  }

  function ParseInlineSeq(s: string): Parsed<seq<ProxyMap>> {
    var t := TrimSpace(s);
    if !("[" <= t && t[|t| - 1] == ']' && |t| >= 2) then Bad else SeqItems(SplitTopLevel(t[1..|t| - 1]))
  }

  /** The proxies read so far, the lines of the open one, and the column of the list's dashes. */
  datatype Reader = Reader(out: seq<ProxyMap>, cur: seq<string>, dash: int)

  function Flush(r: Reader): Parsed<seq<ProxyMap>> {
    if r.cur == [] then Good(r.out)
    else
      match ParseBlock(r.cur)
      case Bad => Bad
      case Good(pm) => Good(r.out + [pm])
  }

  /** What one line does: end the section, fail, or go on. */
  datatype Move = Halt | Fault | Go(next: Reader)

  /** The text after a dash: a flow map is a whole proxy, anything else opens a block. */
  function ReadItem(out: seq<ProxyMap>, rest: string, dash: nat): Move {
    var item := TrimSpace(StripInlineComment(TrimSpace(rest)));
    if "{" <= item then
      match ParseFlow(item)
      case Bad => Fault
      case Good(pm) => Go(Reader(out + [pm], [], dash))
    else Go(Reader(out, [Spaces(dash + 2) + item], dash))
  }

  function ReadLine(r: Reader, ln: string): Move {
    var t, dash := TrimSpace(ln), IndexOf(ln, '-');
    if Skipped(t) then Go(r)
    else if IndentOf(ln) == 0 then Halt
    else if IsSeqItem(t) && 0 <= dash < |ln| && (r.dash < 0 || dash == r.dash) then
      match Flush(r)
      case Bad => Fault
      case Good(out) => ReadItem(out, ln[dash + 1..], dash)
    else Go(r.(cur := r.cur + [ln]))
  }

  function ReadFrom(lines: seq<string>, r: Reader): Parsed<seq<ProxyMap>>
    decreases lines
  {
    if lines == [] then Flush(r)
    else
      match ReadLine(r, lines[0])
      case Halt => Flush(r)
      case Fault => Bad
      case Go(next) => ReadFrom(lines[1..], next)
  }

  /** `extractProxies`. */
  function Extract(text: string): Parsed<seq<ProxyMap>> {
    match FindProxies(LinesFrom(text, []))
    case Missing => Bad
    case Inline(s) => ParseInlineSeq(s)
    case Lines(rest) => ReadFrom(rest, Reader([], [], -1))
  }

  lemma {:induction false} IndexFound(s: string, c: char)
    ensures c in s ==> 0 <= IndexOf(s, c) < |s| && s[IndexOf(s, c)] == c
  {
    if s != [] && s[0] != c { IndexFound(s[1..], c); }
  }

  /** A sequence item always has its dash in the line, so the bounds in `ReadLine` exclude nothing. */
  lemma SeqItemHasDash(ln: string)
    requires IsSeqItem(TrimSpace(ln))
    ensures 0 <= IndexOf(ln, '-') < |ln|
  {
    var left := TrimLeft(ln);
    TrimLeftShorter(ln);
    TrimRightShorter(left);
    assert TrimSpace(ln)[0] == '-' && left[0] == '-';
    assert ln[|ln| - |left|] == left[0];
    IndexFound(ln, '-');
  }

  method ReadItemScan(out: seq<ProxyMap>, rest: string, dash: nat) returns (m: Move)
    ensures m == ReadItem(out, rest, dash)
  {
    var stripped := StripInlineCommentScan(TrimSpace(rest));
    var item := TrimSpace(stripped);
    if "{" <= item {
      var pm := FoldFlowMapping(item, "", map[]);
      return if pm.Bad? then Fault else Go(Reader(out + [pm.value], [], dash));
    }
    return Go(Reader(out, [Spaces(dash + 2) + item], dash));
  }

  /** The loop body over the lines of the section. */
  method ReadLineScan(r: Reader, ln: string) returns (m: Move)
    ensures m == ReadLine(r, ln)
  {
    var t, dash := TrimSpace(ln), IndexOf(ln, '-');
    if Skipped(t) {
      return Go(r);
    }
    if IndentOf(ln) == 0 {
      return Halt;
    }
    if IsSeqItem(t) && 0 <= dash < |ln| && (r.dash < 0 || dash == r.dash) {
      var flushed := Flush(r);
      if flushed.Bad? {
        return Fault;
      }
      m := ReadItemScan(flushed.value, ln[dash + 1..], dash);
      return;
    }
    return Go(r.(cur := r.cur + [ln]));
  }

  method ReadSection(lines: seq<string>) returns (res: Parsed<seq<ProxyMap>>)
    ensures res == ReadFrom(lines, Reader([], [], -1))
  {
    var r := Reader([], [], -1);
    for i := 0 to |lines|
      invariant ReadFrom(lines, Reader([], [], -1)) == ReadFrom(lines[i..], r)
    {
      assert lines[i..][1..] == lines[i + 1..];
      var m := ReadLineScan(r, lines[i]);
      if m.Halt? {
        return Flush(r);
      } else if m.Fault? {
        return Bad;
      }
      r := m.next;
    }
    res := Flush(r);
  }

  method ExtractProxies(text: string) returns (res: Parsed<seq<ProxyMap>>)
    ensures res == Extract(text)
  {
    var lines := LinesFrom(text, []);
    for i := 0 to |lines|
      invariant FindProxies(lines) == FindProxies(lines[i..])
    {
      assert lines[i..][1..] == lines[i + 1..];
      var t := TrimSpace(lines[i]);
      if !Skipped(t) && IndentOf(lines[i]) == 0 && "proxies:" <= t {
        var rest := TrimSpace(t[8..]);
        if "[" <= rest {
          return ParseInlineSeq(rest);
        }
        res := ReadSection(lines[i + 1..]);
        return;
      }
    }
    res := Bad;
  }
}
