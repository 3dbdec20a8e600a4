/**
 Text primitives shared by the Clash printer and parser: Go's `strings.TrimSpace`, and the
 quote-and-bracket scanner state that `splitYAMLKV`, `stripInlineComment` and `splitTopLevel`
 of `internal/importer/clash.go` each keep while they walk a line.
 */
module Yaml {

  /** `unicode.IsSpace`. */
  predicate IsSpace(c: char) {
    || c in " \t\n\r\U{0B}\U{0C}\U{85}\U{A0}\U{1680}\U{2028}\U{2029}\U{202F}\U{205F}\U{3000}"
    || '\U{2000}' <= c <= '\U{200A}'
  }

  function TrimLeft(s: string): string {
    if s != [] && IsSpace(s[0]) then TrimLeft(s[1..]) else s
  }

  function TrimRight(s: string): string {
    if s != [] && IsSpace(s[|s| - 1]) then TrimRight(s[..|s| - 1]) else s
  }

  function TrimSpace(s: string): string { TrimRight(TrimLeft(s)) }

  /** Non-empty and with no space at either end. */
  predicate Tight(s: string) { s != [] && !IsSpace(s[0]) && !IsSpace(s[|s| - 1]) }

  function Spaces(n: nat): string { if n == 0 then [] else " " + Spaces(n - 1) }

  lemma {:induction false} TrimPadded(n: nat, s: string)
    requires Tight(s)
    ensures TrimSpace(Spaces(n) + s) == s
  {
    if n == 0 {
      assert Spaces(0) + s == s;
    } else {
      assert (Spaces(n) + s)[1..] == Spaces(n - 1) + s;
      TrimPadded(n - 1, s);
    }
  }

  lemma TrimTight(s: string)
    requires Tight(s)
    ensures TrimSpace(s) == s && TrimSpace(" " + s) == s
  {
    TrimPadded(0, s);
    assert Spaces(0) + s == s;
    TrimPadded(1, s);
    assert Spaces(1) == " " by { assert Spaces(0) == []; }
  }

  lemma {:induction false} TrimLeftShorter(s: string)
    ensures |TrimLeft(s)| <= |s| && (TrimLeft(s) != [] ==> !IsSpace(TrimLeft(s)[0]))
    ensures TrimLeft(s) == s[|s| - |TrimLeft(s)|..]
  {
    if s != [] && IsSpace(s[0]) { TrimLeftShorter(s[1..]); }
  }

  lemma {:induction false} TrimRightShorter(s: string)
    ensures |TrimRight(s)| <= |s| && TrimRight(s) == s[..|TrimRight(s)|]
    ensures TrimRight(s) != [] ==> !IsSpace(TrimRight(s)[|TrimRight(s)| - 1])
  {
    if s != [] && IsSpace(s[|s| - 1]) { TrimRightShorter(s[..|s| - 1]); }
  }

  lemma TrimShorter(s: string)
    ensures |TrimSpace(s)| <= |s|
    ensures TrimSpace(s) == [] || Tight(TrimSpace(s))
  {
    TrimLeftShorter(s);
    TrimRightShorter(TrimLeft(s));
  }

  /** A text equal to its own trimming has no space at its ends. */
  lemma UntrimmedIsTight(s: string)
    requires s != [] && TrimSpace(s) == s
    ensures Tight(s)
  {
    TrimShorter(s);
  }

  // ---- the scanner ----

  const NONE := '\0'

  /** Bracket depth and the open quote character, if any. */
  datatype Scan = Scan(depth: nat, quote: char)

  const TOP := Scan(0, NONE)

  function Step(st: Scan, c: char): Scan {
    if st.quote != NONE then (if c == st.quote then st.(quote := NONE) else st)
    else if c == '"' || c == '\'' then st.(quote := c)
    else if c == '{' || c == '[' then st.(depth := st.depth + 1)
    else if (c == '}' || c == ']') && st.depth > 0 then st.(depth := st.depth - 1)
    else st
  }

  function Run(st: Scan, s: string): Scan
    decreases s
  {
    if s == [] then st else Run(Step(st, s[0]), s[1..])
  }

  lemma {:induction false} RunConcat(st: Scan, a: string, b: string)
    ensures Run(st, a + b) == Run(Run(st, a), b)
    decreases a
  {
    if a == [] {
      assert a + b == b;
    } else {
      assert (a + b)[1..] == a[1..] + b;
      RunConcat(Step(st, a[0]), a[1..], b);
    }
  }

  /** No position of the text is reached at top level. */
  predicate Inside(st: Scan, s: string)
    decreases s
  {
    s == [] || (st != TOP && Inside(Step(st, s[0]), s[1..]))
  }

  lemma {:induction false} InsideConcat(st: Scan, a: string, b: string)
    ensures Inside(st, a + b) <==> Inside(st, a) && Inside(Run(st, a), b)
    decreases a
  {
    if a == [] {
      assert a + b == b;
    } else {
      assert (a + b)[1..] == a[1..] + b;
      InsideConcat(Step(st, a[0]), a[1..], b);
    }
  }

  /** No comma is met at top level. */
  predicate NoTopComma(st: Scan, s: string)
    decreases s
  {
    s == [] || (!(st == TOP && s[0] == ',') && NoTopComma(Step(st, s[0]), s[1..]))
  }

  lemma {:induction false} NoTopCommaConcat(st: Scan, a: string, b: string)
    ensures NoTopComma(st, a + b) <==> NoTopComma(st, a) && NoTopComma(Run(st, a), b)
    decreases a
  {
    if a == [] {
      assert a + b == b;
    } else {
      assert (a + b)[1..] == a[1..] + b;
      NoTopCommaConcat(Step(st, a[0]), a[1..], b);
    }
  }

  predicate Blank(c: char) { c == ' ' || c == '\t' }

  /** No inline comment starts in the text, given the character before it. */
  predicate Quiet(prev: char, st: Scan, s: string)
    decreases s
  {
    s == [] || (!(st == TOP && s[0] == '#' && Blank(prev)) && Quiet(s[0], Step(st, s[0]), s[1..]))
  }

  function LastOf(prev: char, s: string): char { if s == [] then prev else s[|s| - 1] }

  lemma {:induction false} QuietConcat(prev: char, st: Scan, a: string, b: string)
    ensures Quiet(prev, st, a + b) <==> Quiet(prev, st, a) && Quiet(LastOf(prev, a), Run(st, a), b)
    decreases a
  {
    if a == [] {
      assert a + b == b;
    } else {
      assert (a + b)[1..] == a[1..] + b;
      QuietConcat(a[0], Step(st, a[0]), a[1..], b);
    }
  }

  lemma {:induction false} InsideIsQuiet(prev: char, st: Scan, s: string)
    requires Inside(st, s)
    ensures Quiet(prev, st, s) && NoTopComma(st, s)
    decreases s
  {
    if s != [] { InsideIsQuiet(s[0], Step(st, s[0]), s[1..]); }
  }

  // ---- the three scanners, as functions ----

  /** `splitTopLevel` at commas: the pieces between top-level commas; `cur` is the piece so far. */
  function SplitFrom(s: string, st: Scan, cur: string): seq<string> {
    if s == [] then [cur]
    else if s[0] == ',' && st == TOP then [cur] + SplitFrom(s[1..], st, [])
    else SplitFrom(s[1..], Step(st, s[0]), cur + [s[0]])
  }

  function SplitTopLevel(s: string): seq<string> { SplitFrom(s, TOP, []) }

  lemma SplitHead(t: string, st: Scan, cur: string)
    requires t != []
    ensures SplitFrom(t, st, cur) ==
      if t[0] == ',' && st == TOP then [cur] + SplitFrom(t[1..], st, [])
      else SplitFrom(t[1..], Step(st, t[0]), cur + [t[0]])
  {}

  lemma SplitNext(s: string, i: nat, st: Scan, start: nat)
    requires start <= i < |s|
    ensures SplitFrom(s[i..], st, s[start..i]) ==
      if s[i] == ',' && st == TOP then [s[start..i]] + SplitFrom(s[i + 1..], st, [])
      else SplitFrom(s[i + 1..], Step(st, s[i]), s[start..i + 1])
  {
    var t := s[i..];
    SplitHead(t, st, s[start..i]);
    assert t[0] == s[i] && t[1..] == s[i + 1..];
    assert s[start..i] + [s[i]] == s[start..i + 1];
  }

  /** The quote and bracket part of each scanner's loop body. */
  method Advance(depth: nat, quote: char, c: char) returns (d: nat, q: char)
    ensures Scan(d, q) == Step(Scan(depth, quote), c)
  {
    d, q := depth, quote;
    if quote != NONE {
      if c == quote { q := NONE; }
    } else if c == '"' || c == '\'' {
      q := c;
    } else if c == '{' || c == '[' {
      d := depth + 1;
    } else if c == '}' || c == ']' {
      if depth > 0 { d := depth - 1; }
    }
  }

  method SplitTopLevelScan(s: string) returns (out: seq<string>)
    ensures out == SplitTopLevel(s)
  {
    out := [];
    var depth, quote, start := 0, NONE, 0;
    for i := 0 to |s|
      invariant 0 <= start <= i && depth >= 0
      invariant SplitTopLevel(s) == out + SplitFrom(s[i..], Scan(depth, quote), s[start..i])
    {
      SplitNext(s, i, Scan(depth, quote), start);
      if s[i] == ',' && depth == 0 && quote == NONE {
        out := out + [s[start..i]];
        start := i + 1;
        assert s[start..i + 1] == [] && Scan(depth, quote) == TOP;
      } else {
        depth, quote := Advance(depth, quote, s[i]);
      }
    }
    out := out + [s[start..]];
    assert s[|s|..] == [] && s[start..|s|] == s[start..];
  }

  lemma {:induction false} PiecesShorter(s: string, st: Scan, cur: string)
    ensures forall p :: p in SplitFrom(s, st, cur) ==> |p| <= |cur| + |s|
  {
    if s != [] {
      PiecesShorter(s[1..], st, []);
      PiecesShorter(s[1..], Step(st, s[0]), cur + [s[0]]);
    }
  }

  /** A stretch without top-level separator extends the current piece. */
  lemma {:induction false} SplitSkips(a: string, b: string, st: Scan, cur: string)
    requires NoTopComma(st, a)
    ensures SplitFrom(a + b, st, cur) == SplitFrom(b, Run(st, a), cur + a)
  {
    if a == [] {
      assert a + b == b && cur + a == cur;
    } else {
      assert (a + b)[1..] == a[1..] + b;
      SplitSkips(a[1..], b, Step(st, a[0]), cur + [a[0]]);
      assert cur + [a[0]] + a[1..] == cur + a;
    }
  }

  function TrimBlanks(s: string): string {
    if s != [] && Blank(s[|s| - 1]) then TrimBlanks(s[..|s| - 1]) else s
  }

  /** `stripInlineComment` from position `i` on. */
  function StripFrom(s: string, i: nat, st: Scan): string
    requires i <= |s|
    decreases |s| - i
  {
    if i == |s| then s
    else if st == TOP && s[i] == '#' && i > 0 && Blank(s[i - 1]) then TrimBlanks(s[..i])
    else StripFrom(s, i + 1, Step(st, s[i]))
  }

  function StripInlineComment(s: string): string { StripFrom(s, 0, TOP) }

  predicate CommentAt(s: string, i: nat, st: Scan)
    requires i < |s|
  {
    st == TOP && s[i] == '#' && i > 0 && Blank(s[i - 1])
  }

  lemma StripNext(s: string, i: nat, st: Scan)
    requires i < |s|
    ensures StripFrom(s, i, st) == if CommentAt(s, i, st) then TrimBlanks(s[..i])
        else StripFrom(s, i + 1, Step(st, s[i]))
  {}

  method StripInlineCommentScan(s: string) returns (r: string)
    ensures r == StripInlineComment(s)
  {
    var depth, quote := 0, NONE;
    for i := 0 to |s|
      invariant depth >= 0 && StripInlineComment(s) == StripFrom(s, i, Scan(depth, quote))
    {
      StripNext(s, i, Scan(depth, quote));
      if s[i] == '#' && depth == 0 && quote == NONE && i > 0 && Blank(s[i - 1]) {
        return TrimBlanks(s[..i]);
      }
      depth, quote := Advance(depth, quote, s[i]);
    }
    return s;
  }

  lemma {:induction false} QuietKept(s: string, i: nat, st: Scan)
    requires i <= |s| && Quiet(LastOf(NONE, s[..i]), st, s[i..])
    ensures StripFrom(s, i, st) == s
    decreases |s| - i
  {
    if i < |s| {
      assert s[i..][1..] == s[i + 1..];
      QuietKept(s, i + 1, Step(st, s[i]));
    }
  }

  lemma {:induction false} QuietSkips(s: string, i: nat, st: Scan, n: nat)
    requires i <= n <= |s| && Quiet(LastOf(NONE, s[..i]), st, s[i..n])
    ensures StripFrom(s, i, st) == StripFrom(s, n, Run(st, s[i..n]))
    decreases n - i
  {
    if i < n {
      assert s[i..n][1..] == s[i + 1..n] && s[..i + 1] == s[..i] + [s[i]];
      StripNext(s, i, st);
      QuietSkips(s, i + 1, Step(st, s[i]), n);
    }
  }

  /**
   What is removed, exactly: from the blanks before the first hash outside quotes and brackets
   that follows a blank; nothing when there is none.
   */
  lemma CommentRemoved(s: string)
    ensures Quiet(NONE, TOP, s) ==> StripInlineComment(s) == s
    ensures forall n: nat :: n < |s| && Quiet(NONE, TOP, s[..n]) && CommentAt(s, n, Run(TOP, s[..n])) ==>
      StripInlineComment(s) == TrimBlanks(s[..n])
  {
    assert s[0..] == s && s[..0] == [];
    if Quiet(NONE, TOP, s) { QuietKept(s, 0, TOP); }
    forall n: nat | n < |s| && Quiet(NONE, TOP, s[..n]) && CommentAt(s, n, Run(TOP, s[..n]))
      ensures StripInlineComment(s) == TrimBlanks(s[..n])
    {
      assert s[0..n] == s[..n];
      QuietSkips(s, 0, TOP, n);
    }
  }

  lemma {:induction false} BlanksTrimmed(t: string, pad: string)
    requires t != [] && !Blank(t[|t| - 1]) && forall c :: c in pad ==> Blank(c)
    ensures TrimBlanks(t + pad) == t
  {
    if pad == [] {
      assert t + pad == t;
    } else {
      var n := |pad| - 1;
      assert pad[n] in pad && (t + pad)[..|t + pad| - 1] == t + pad[..n];
      forall c | c in pad[..n] ensures c in pad {}
      BlanksTrimmed(t, pad[..n]);
    }
  }

  lemma {:induction false} BlanksQuiet(prev: char, st: Scan, pad: string)
    requires forall c :: c in pad ==> Blank(c)
    ensures Quiet(prev, st, pad) && (st.quote == NONE ==> Run(st, pad) == st)
    decreases pad
  {
    if pad != [] {
      assert pad[0] in pad;
      forall c | c in pad[1..] ensures c in pad {}
      BlanksQuiet(pad[0], Step(st, pad[0]), pad[1..]);
    }
  }

  /** A comment after a complete value goes, with the blanks before it. */
  lemma TrailingCommentGoes(t: string, pad: string, note: string)
    requires Tight(t) && Quiet(NONE, TOP, t) && Run(TOP, t) == TOP && pad != [] && forall c :: c in pad ==> Blank(c)
    ensures StripInlineComment(t + pad + ("#" + note)) == t
  {
    var s, n := t + pad + ("#" + note), |t + pad|;
    assert s[..n] == t + pad && s[n] == '#' && pad[|pad| - 1] in pad && s[n - 1] == pad[|pad| - 1];
    BlanksQuiet(LastOf(NONE, t), TOP, pad);
    QuietConcat(NONE, TOP, t, pad);
    RunConcat(TOP, t, pad);
    CommentRemoved(s);
    BlanksTrimmed(t, pad);
  }

  lemma {:induction false} TrimBlanksShorter(s: string)
    ensures |TrimBlanks(s)| <= |s|
  {
    if s != [] && Blank(s[|s| - 1]) { TrimBlanksShorter(s[..|s| - 1]); }
  }

  lemma {:induction false} StripShorter(s: string, i: nat, st: Scan)
    requires i <= |s|
    ensures |StripFrom(s, i, st)| <= |s|
    decreases |s| - i
  {
    if i < |s| {
      TrimBlanksShorter(s[..i]);
      StripShorter(s, i + 1, Step(st, s[i]));
    }
  }

  /** The first top-level colon that is followed by a blank or the end; `|s|` when there is none. */
  function ColonFrom(s: string, i: nat, st: Scan): (r: nat)
    requires i <= |s|
    ensures i <= r <= |s| && (r < |s| ==> s[r] == ':' && (r + 1 == |s| || Blank(s[r + 1])))
    decreases |s| - i
  {
    if i == |s| then |s|
    else if st == TOP && s[i] == ':' && (i + 1 == |s| || Blank(s[i + 1])) then i
    else ColonFrom(s, i + 1, Step(st, s[i]))
  }

  function Unquote(s: string): string {
    var t := TrimSpace(s);
    if |t| >= 2 && (t[0] == '"' || t[0] == '\'') && t[|t| - 1] == t[0] then t[1..|t| - 1] else t
  }

  datatype KV = NoKV | KV(key: string, val: string)

  /** `splitYAMLKV`. */
  function SplitKV(s: string): KV {
    var i := ColonFrom(s, 0, TOP);
    if i == |s| then NoKV
    else KV(Unquote(TrimSpace(s[..i])), TrimSpace(StripInlineComment(TrimSpace(s[i + 1..]))))
  }

  lemma ColonNext(s: string, i: nat, st: Scan)
    requires i < |s|
    ensures ColonFrom(s, i, st) ==
      if st == TOP && s[i] == ':' && (i + 1 == |s| || Blank(s[i + 1])) then i else ColonFrom(s, i + 1, Step(st, s[i]))
  {}

  /** The loop of `splitYAMLKV` up to the separating colon. */
  method FindColon(s: string) returns (r: nat)
    ensures r == ColonFrom(s, 0, TOP)
  {
    var depth, quote := 0, NONE;
    for i := 0 to |s|
      invariant depth >= 0 && ColonFrom(s, 0, TOP) == ColonFrom(s, i, Scan(depth, quote))
    {
      ColonNext(s, i, Scan(depth, quote));
      if s[i] == ':' && depth == 0 && quote == NONE && (i + 1 >= |s| || Blank(s[i + 1])) {
        return i;
      }
      depth, quote := Advance(depth, quote, s[i]);
    }
    return |s|;
  }

  method SplitYAMLKV(s: string) returns (r: KV)
    ensures r == SplitKV(s)
  {
    var i := FindColon(s);
    if i == |s| {
      return NoKV;
    }
    var val := StripInlineCommentScan(TrimSpace(s[i + 1..]));
    return KV(Unquote(TrimSpace(s[..i])), TrimSpace(val));
  }

  lemma SplitKVShorter(s: string)
    ensures SplitKV(s).KV? ==> |SplitKV(s).val| < |s|
  {
    var i := ColonFrom(s, 0, TOP);
    if i < |s| {
      var rest := TrimSpace(s[i + 1..]);
      TrimShorter(s[i + 1..]);
      StripShorter(rest, 0, TOP);
      TrimShorter(StripInlineComment(rest));
    }
  }

  // ---- texts that do not disturb the scanner ----

  /** No quote and no bracket. */
  predicate Plain(s: string) { forall c :: c in s ==> c !in "\"'{}[]" }

  lemma {:induction false} PlainRun(st: Scan, s: string)
    requires Plain(s) && st.quote == NONE
    ensures Run(st, s) == st && (st.depth > 0 ==> Inside(st, s))
    ensures ',' !in s ==> NoTopComma(st, s)
  {
    if s != [] {
      assert s[0] in s;
      forall c | c in s[1..] ensures c in s {}
      PlainRun(st, s[1..]);
    }
  }

  lemma {:induction false} PlainQuiet(prev: char, st: Scan, s: string)
    requires Plain(s) && st.quote == NONE && '#' !in s
    ensures Quiet(prev, st, s)
    decreases s
  {
    if s != [] {
      assert s[0] in s;
      forall c | c in s[1..] ensures c in s {}
      PlainQuiet(s[0], st, s[1..]);
    }
  }

  lemma {:induction false} PlainColon(s: string, i: nat, n: nat)
    requires i <= n < |s| && s[n] == ':' && (n + 1 == |s| || Blank(s[n + 1]))
    requires Plain(s[..n]) && ':' !in s[..n]
    ensures ColonFrom(s, i, TOP) == n
    decreases n - i
  {
    if i < n {
      assert s[..n][i] == s[i] && s[i] in s[..n];
      PlainColon(s, i + 1, n);
    }
  }

  /** Inside quotes nothing but the closing quote changes the state. */
  lemma {:induction false} QuotedRun(q: char, d: nat, s: string)
    requires (q == '"' || q == '\'') && q !in s
    ensures Run(Scan(d, q), s + [q]) == Scan(d, NONE)
    ensures Inside(Scan(d, q), s + [q])
  {
    if s == [] {
      assert s + [q] == [q] && [q][1..] == [];
    } else {
      assert (s + [q])[1..] == s[1..] + [q];
      assert s[0] in s;
      forall c | c in s[1..] ensures c in s {}
      QuotedRun(q, d, s[1..]);
    }
  }

  // ---- what quotes and brackets protect ----

  lemma {:induction false} InsideNoColon(s: string, i: nat, st: Scan)
    requires i <= |s| && Inside(st, s[i..])
    ensures ColonFrom(s, i, st) == |s|
    decreases |s| - i
  {
    if i < |s| {
      assert s[i..][1..] == s[i + 1..];
      InsideNoColon(s, i + 1, Step(st, s[i]));
    }
  }

  /** A text whose first character opens what only its last one closes is one piece, without separator or comment. */
  lemma Protected(t: string)
    requires t != [] && t[0] in "\"'{[" && Inside(Step(TOP, t[0]), t[1..])
    ensures SplitTopLevel(t) == [t] && StripInlineComment(t) == t && ColonFrom(t, 0, TOP) == |t|
  {
    InsideIsQuiet(t[0], Step(TOP, t[0]), t[1..]);
    SplitSkips(t, [], TOP, []);
    assert t + [] == t && [] + t == t && t[0..] == t && t[..0] == [];
    QuietKept(t, 0, TOP);
    ColonNext(t, 0, TOP);
    InsideNoColon(t, 1, Step(TOP, t[0]));
  }

  /** In either kind of quotes, commas, hashes and colons are text, and the quotes come off again. */
  lemma QuotesProtect(q: char, s: string)
    requires (q == '"' || q == '\'') && q !in s
    ensures var t := [q] + s + [q];
      SplitTopLevel(t) == [t] && StripInlineComment(t) == t && ColonFrom(t, 0, TOP) == |t| && Unquote(t) == s
  {
    var t := [q] + s + [q];
    assert t[0] == q && t[1..] == s + [q];
    QuotedRun(q, 0, s);
    Protected(t);
    TrimTight(t);
    assert t[1..|t| - 1] == s;
  }

  /** In either kind of brackets they are too, as in an inline list; the brackets stay. */
  lemma BracketsProtect(open: char, close: char, s: string)
    requires (open == '[' || open == '{') && (close == ']' || close == '}') && Plain(s)
    ensures var t := [open] + s + [close];
      SplitTopLevel(t) == [t] && StripInlineComment(t) == t && ColonFrom(t, 0, TOP) == |t| && Unquote(t) == t
  {
    var t := [open] + s + [close];
    assert t[0] == open && t[1..] == s + [close];
    PlainRun(Scan(1, NONE), s);
    InsideConcat(Scan(1, NONE), s, [close]);
    assert [close][1..] == [] && Inside(Step(Scan(1, NONE), close), []);
    Protected(t);
    TrimTight(t);
  }

  /** Any other text keeps what it has at its ends. */
  lemma UnquoteLeaves(t: string)
    requires Tight(t) && !(|t| >= 2 && (t[0] == '"' || t[0] == '\'') && t[|t| - 1] == t[0])
    ensures Unquote(t) == t
  {
    TrimTight(t);
  }
}
