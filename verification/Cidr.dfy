/**
 CIDR prefixes and the two list normalisers of `internal/pbr/pbr.go`: `collapsePrefixes`
 and `classifyCIDRs`. A prefix is a family, a network address and a length, as in section
 3.1 of RFC 4632; addresses are numbers, so "contains" compares leading bits by division.
 */
module Cidr {
  import opened Sorting

  datatype Addr = Addr(v6: bool, n: nat)
  datatype Prefix = Prefix(v6: bool, addr: nat, bits: nat)

  function Pow2(n: nat): (r: nat)
    ensures r > 0
  {
    if n == 0 then 1 else 2 * Pow2(n - 1)
  }

  function Width(v6: bool): nat { if v6 then 128 else 32 }

  /** How many addresses a prefix holds. */
  function Size(p: Prefix): (r: nat)
    ensures r > 0
  {
    if p.bits <= Width(p.v6) then Pow2(Width(p.v6) - p.bits) else 1
  }

  /** A masked prefix: `netip.Prefix.Masked`, or a bare address at full length. */
  predicate Masked(p: Prefix) {
    p.bits <= Width(p.v6) && p.addr % Size(p) == 0
  }

  /** `netip.Prefix.Contains`. */
  predicate Contains(p: Prefix, a: Addr) {
    p.v6 == a.v6 && a.n / Size(p) == p.addr / Size(p)
  }

  function Network(p: Prefix): Addr { Addr(p.v6, p.addr) }

  /** The test `collapsePrefixes` makes before it drops `p`. */
  predicate Swallows(q: Prefix, p: Prefix) {
    q.bits <= p.bits && Contains(q, Network(p))
  }

  /** Membership of an address in a set of prefixes: what an nft or ipset set decides. */
  predicate Covered(ps: seq<Prefix>, a: Addr) {
    exists p :: p in ps && Contains(p, a)
  }

  lemma CoveredNonEmpty(ps: seq<Prefix>, a: Addr)
    ensures Covered(ps, a) ==> ps != []
  {}

  // ---- arithmetic of nested blocks ----

  lemma TimesAtLeast(d: nat, k: int)
    requires d > 0
    ensures k >= 1 ==> d * k >= d
    ensures k <= -1 ==> d * k <= 0 - d
  {}

  lemma DivideUnique(a: nat, d: nat, q: nat, r: nat)
    requires d > 0 && r < d && a == d * q + r
    ensures a / d == q
  {
    var k := a / d;
    assert a == d * k + a % d;
    assert d * (q - k) == d * q - d * k;
    TimesAtLeast(d, q - k);
  }

  lemma DivideTwice(a: nat, b: nat, c: nat)
    requires b > 0 && c > 0
    ensures b * c > 0 && a / (b * c) == (a / b) / c
  {
    var q, r := a / b, a % b;
    var q2, r2 := q / c, q % c;
    Regroup(a, b, c, q, r, q2, r2);
    DivideUnique(a, b * c, q2, b * r2 + r);
  }

  lemma Regroup(a: nat, b: nat, c: nat, q: nat, r: nat, q2: nat, r2: nat)
    requires a == b * q + r && q == c * q2 + r2 && r < b && r2 < c
    ensures b * c > 0 && a == (b * c) * q2 + (b * r2 + r) && b * r2 + r < b * c
  {
    assert b * q == b * (c * q2) + b * r2;
    assert b * (c * q2) == (b * c) * q2;
    assert b * (c - r2) >= b by { TimesAtLeast(b, c - r2); }
    assert b * (c - r2) == b * c - b * r2;
  }

  lemma {:induction false} Pow2Adds(i: nat, j: nat)
    ensures Pow2(i + j) == Pow2(i) * Pow2(j)
  {
    if i == 0 {
    } else {
      Pow2Adds(i - 1, j);
      assert Pow2(i + j) == 2 * Pow2(i - 1 + j);
      assert 2 * (Pow2(i - 1) * Pow2(j)) == (2 * Pow2(i - 1)) * Pow2(j);
    }
  }

  /** A shorter prefix is a whole number of longer blocks. */
  lemma SizeDivides(q: Prefix, p: Prefix)
    requires q.v6 == p.v6 && q.bits <= p.bits <= Width(p.v6)
    ensures Size(q) == Size(p) * Pow2(p.bits - q.bits)
  {
    Pow2Adds(Width(p.v6) - p.bits, p.bits - q.bits);
    assert Width(p.v6) - p.bits + (p.bits - q.bits) == Width(p.v6) - q.bits;
  }

  /** A masked prefix is the block of addresses that starts at its own. */
  lemma ContainsIsRange(p: Prefix, a: Addr)
    requires Masked(p)
    ensures Contains(p, a) <==> p.v6 == a.v6 && p.addr <= a.n < p.addr + Size(p)
  {
    var d, q := Size(p), p.addr / Size(p);
    assert p.addr == d * q;
    if p.addr <= a.n < p.addr + d { DivideUnique(a.n, d, q, a.n - p.addr); }
    if a.n / d == q { assert a.n == d * q + a.n % d; }
  }

  lemma NetworkInside(p: Prefix)
    ensures Contains(p, Network(p))
  {}

  lemma SwallowsIsInclusion(q: Prefix, p: Prefix, a: Addr)
    requires Masked(p) && Masked(q) && Swallows(q, p) && Contains(p, a)
    ensures Contains(q, a)
  {
    SizeDivides(q, p);
    DivideTwice(a.n, Size(p), Pow2(p.bits - q.bits));
    DivideTwice(p.addr, Size(p), Pow2(p.bits - q.bits));
  }

  /**
   The syntactic test of `collapsePrefixes` is set inclusion: `q` swallows `p` exactly when
   every address of `p` is an address of `q`.
   */
  lemma SwallowsIffSubset(q: Prefix, p: Prefix)
    requires Masked(p) && Masked(q)
    ensures Swallows(q, p) <==> forall a :: Contains(p, a) ==> Contains(q, a)
  {
    if Swallows(q, p) {
      forall a | Contains(p, a) ensures Contains(q, a) { SwallowsIsInclusion(q, p, a); }
    } else if Contains(q, Network(p)) {
      var b := StepOut(q, p);
    } else {
      NetworkInside(p);
    }
  }

  /** A longer prefix does not fill a shorter one: some address of `p` is outside `q`. */
  lemma StepOut(q: Prefix, p: Prefix) returns (b: Addr)
    requires Masked(p) && Masked(q) && p.bits < q.bits && Contains(q, Network(p))
    ensures Contains(p, b) && !Contains(q, b)
  {
    SizeDivides(p, q);
    b := Addr(p.v6, p.addr + Size(q));
    assert Pow2(q.bits - p.bits) == 2 * Pow2(q.bits - p.bits - 1);
    NextBlock(p.addr, Size(q), Pow2(q.bits - p.bits));
  }

  lemma NextBlock(n: nat, s: nat, m: nat)
    requires s > 0 && m >= 2 && s * m > 0 && n % (s * m) == 0
    ensures (n + s) / (s * m) == n / (s * m)
    ensures (n + s) / s == n / s + 1
  {
    assert s * m >= 2 * s by { TimesAtLeast(s, m - 1); assert s * (m - 1) == s * m - s; }
    var k, j := n / (s * m), n / s;
    DivideUnique(n + s, s * m, k, s);
    assert s * (j + 1) == s * j + s;
    DivideUnique(n + s, s, j + 1, n % s);
  }

  /** CIDR prefixes are hierarchical: nested one way, or without a common address. */
  lemma NestedOrDisjoint(p: Prefix, q: Prefix)
    requires Masked(p) && Masked(q)
    ensures Swallows(p, q) || Swallows(q, p) || forall a :: !(Contains(p, a) && Contains(q, a))
  {
    if !Swallows(p, q) && !Swallows(q, p) {
      forall a ensures !(Contains(p, a) && Contains(q, a)) {
        if Contains(p, a) && Contains(q, a) {
          if p.bits <= q.bits {
            SizeDivides(p, q);
            DivideTwice(a.n, Size(q), Pow2(q.bits - p.bits));
            DivideTwice(q.addr, Size(q), Pow2(q.bits - p.bits));
          } else {
            SizeDivides(q, p);
            DivideTwice(a.n, Size(p), Pow2(p.bits - q.bits));
            DivideTwice(p.addr, Size(p), Pow2(p.bits - q.bits));
          }
        }
      }
    }
  }

  lemma MutualSwallow(p: Prefix, q: Prefix)
    requires Masked(p) && Masked(q) && Swallows(p, q) && Swallows(q, p)
    ensures p == q
  {
    assert p.addr == Size(p) * (p.addr / Size(p));
    assert q.addr == Size(q) * (q.addr / Size(q));
  }

  // ---- collapsePrefixes ----

  /** `netip.Addr.Less` with equality: IPv4 sorts before IPv6. */
  predicate AddrLeq(a: Addr, b: Addr) {
    (!a.v6 && b.v6) || (a.v6 == b.v6 && a.n <= b.n)
  }

  /** First sort key of `collapsePrefixes`: broadest first. */
  predicate BroadestFirst(p: Prefix, q: Prefix) {
    p.bits < q.bits || (p.bits == q.bits && AddrLeq(Network(p), Network(q)))
  }

  /** Second sort key: by address, then broadest. */
  predicate ByAddress(p: Prefix, q: Prefix) {
    if Network(p) != Network(q) then AddrLeq(Network(p), Network(q)) else p.bits <= q.bits
  }

  lemma PrefixOrders()
    ensures TotalOrder(BroadestFirst) && TotalOrder(ByAddress)
  {
  }

  predicate SwallowedByAny(kept: seq<Prefix>, p: Prefix) {
    exists q :: q in kept && Swallows(q, p)
  }

  /** The scan of `collapsePrefixes` over the broadest-first list. */
  function Keep(kept: seq<Prefix>, rest: seq<Prefix>): seq<Prefix>
    decreases |rest|
  {
    if rest == [] then kept
    else Keep(if SwallowedByAny(kept, rest[0]) then kept else kept + [rest[0]], rest[1..])
  }

  function Collapse(input: seq<Prefix>): seq<Prefix> {
    Sort(Keep([], Sort(input, BroadestFirst)), ByAddress)
  }

  /** `collapsePrefixes` as written: two sorts around a quadratic scan with an early exit. */
  method CollapsePrefixes(input: seq<Prefix>) returns (kept: seq<Prefix>)
    ensures kept == Collapse(input)
  {
    var sorted := Sort(input, BroadestFirst);
    kept := [];
    for i := 0 to |sorted|
      invariant Keep([], sorted) == Keep(kept, sorted[i..])
    {
      var p := sorted[i];
      var covered := false;
      var j := 0;
      while j < |kept|
        invariant 0 <= j <= |kept|
        invariant !covered ==> forall k :: 0 <= k < j ==> !Swallows(kept[k], p)
        invariant covered ==> SwallowedByAny(kept, p)
      {
        if Swallows(kept[j], p) {
          covered := true;
          break;
        }
        j := j + 1;
      }
      assert covered == SwallowedByAny(kept, p);
      assert sorted[i..][1..] == sorted[i + 1..];
      if !covered {
        kept := kept + [p];
      }
    }
    kept := Sort(kept, ByAddress);
  }

  ghost predicate AllMasked(ps: seq<Prefix>) {
    forall p :: p in ps ==> Masked(p)
  }

  /** No prefix of the list swallows another position of it. */
  ghost predicate Antichain(ps: seq<Prefix>) {
    forall i, j :: 0 <= i < |ps| && 0 <= j < |ps| && i != j ==> !Swallows(ps[i], ps[j])
  }

  lemma {:induction false} KeepScan(kept: seq<Prefix>, rest: seq<Prefix>)
    requires AllMasked(kept) && AllMasked(rest) && Antichain(kept)
    requires Sorted(rest, BroadestFirst)
    requires forall p, q :: p in kept && q in rest ==> p.bits <= q.bits
    ensures var out := Keep(kept, rest);
      && AllMasked(out) && Antichain(out) && kept <= out
      && (forall p :: p in out ==> p in kept || p in rest)
      && (forall p :: p in kept || p in rest ==> SwallowedByAny(out, p))
    decreases |rest|
  {
    if rest == [] {
      forall p | p in kept ensures SwallowedByAny(kept, p) { NetworkInside(p); }
    } else {
      var p := rest[0];
      assert p in rest;
      assert forall q :: q in rest ==> p.bits <= q.bits;
      if SwallowedByAny(kept, p) {
        KeepScan(kept, rest[1..]);
        var q :| q in kept && Swallows(q, p);
        assert q in Keep(kept, rest[1..]);
      } else {
        var next := kept + [p];
        forall i, j | 0 <= i < |next| && 0 <= j < |next| && i != j ensures !Swallows(next[i], next[j]) {
          if i == |kept| && Swallows(p, next[j]) {
            assert next[j] in kept;
            SameLengthSymmetric(p, next[j]);
          } else if j == |kept| {
            assert next[i] in kept;
          }
        }
        KeepScan(next, rest[1..]);
        NetworkInside(p);
        assert p in next;
      }
      assert rest == [p] + rest[1..];
    }
  }

  lemma SameLengthSymmetric(p: Prefix, q: Prefix)
    requires Swallows(p, q) && p.bits == q.bits
    ensures Swallows(q, p)
  {}

  /** A member is maximal when no other prefix of the list swallows it. */
  ghost predicate Maximal(p: Prefix, ps: seq<Prefix>) {
    p in ps && forall q :: q in ps && Swallows(q, p) ==> q == p
  }

  lemma KeepIsMaximal(input: seq<Prefix>, out: seq<Prefix>)
    requires AllMasked(input) && Antichain(out)
    requires forall p :: p in out ==> p in input
    requires forall p :: p in input ==> SwallowedByAny(out, p)
    ensures forall p :: p in out <==> Maximal(p, input)
  {
    forall p ensures p in out <==> Maximal(p, input) {
      if Maximal(p, input) {
        var q :| q in out && Swallows(q, p);
      }
      if p in out {
        forall q | q in input && Swallows(q, p) ensures q == p {
          var r :| r in out && Swallows(r, q);
          SwallowsTransitive(r, q, p);
          assert r == p;
          MutualSwallow(q, p);
        }
      }
    }
  }

  lemma SwallowsTransitive(r: Prefix, q: Prefix, p: Prefix)
    requires Masked(r) && Masked(q) && Masked(p) && Swallows(r, q) && Swallows(q, p)
    ensures Swallows(r, p)
  {
    SwallowsIsInclusion(r, q, Network(p));
  }

  /** The unsorted and the sorted result hold the same prefixes, each once. */
  lemma CollapseKeeps(input: seq<Prefix>)
    requires AllMasked(input)
    ensures var out := Collapse(input);
      && Sorted(out, ByAddress) && Distinct(out)
      && (forall p :: p in out <==> Maximal(p, input))
      && (forall p :: p in input ==> SwallowedByAny(out, p))
  {
    var sorted := Sort(input, BroadestFirst);
    var kept := Keep([], sorted);
    PrefixOrders();
    SortPermutes(input, BroadestFirst);
    SortSorts(input, BroadestFirst);
    KeepScan([], sorted);
    SortPermutes(kept, ByAddress);
    SortSorts(kept, ByAddress);
    KeepIsMaximal(input, kept);
    AntichainDistinct(kept);
    DistinctFromMultiset(kept, Collapse(input));
    forall p | p in input ensures SwallowedByAny(Collapse(input), p) {
      var q :| q in kept && Swallows(q, p);
    }
  }

  lemma AntichainDistinct(ps: seq<Prefix>)
    requires Antichain(ps)
    ensures Distinct(ps)
  {
    forall i, j | 0 <= i < j < |ps| ensures ps[i] != ps[j] { NetworkInside(ps[i]); }
  }

  /**
   What `collapsePrefixes` returns for any masked prefixes: exactly the maximal ones, in
   strictly increasing address order, pairwise disjoint, covering the same addresses, and
   every one of them needed.
   */
  lemma CollapseIsMinimalCover(input: seq<Prefix>)
    requires AllMasked(input)
    ensures var out := Collapse(input);
      && (forall p :: p in out <==> Maximal(p, input))
      && Sorted(out, ByAddress) && Distinct(out)
      && (forall p, q, a :: p in out && q in out && p != q ==> !(Contains(p, a) && Contains(q, a)))
      && (forall a :: Covered(out, a) <==> Covered(input, a))
      && (forall i :: 0 <= i < |out| ==> Needed(out, i))
  {
    var out := Collapse(input);
    CollapseKeeps(input);
    forall p, q, a | p in out && q in out && p != q ensures !(Contains(p, a) && Contains(q, a)) {
      MaximalDisjoint(p, q, input, a);
    }
    forall a ensures Covered(out, a) <==> Covered(input, a) { KeepCoversSame(input, out, a); }
    forall i | 0 <= i < |out| ensures Needed(out, i) { EachNeeded(input, out, i); }
  }

  /** Removing position `i` loses an address. */
  ghost predicate Needed(ps: seq<Prefix>, i: nat)
    requires i < |ps|
  {
    exists a :: Covered(ps, a) && !Covered(ps[..i] + ps[i + 1..], a)
  }

  lemma EachNeeded(input: seq<Prefix>, out: seq<Prefix>, i: nat)
    requires AllMasked(input) && i < |out| && Distinct(out)
    requires forall p :: p in out <==> Maximal(p, input)
    ensures Needed(out, i)
  {
    var p := out[i];
    NetworkInside(p);
    assert p in out;
    var rest := out[..i] + out[i + 1..];
    forall q | q in rest ensures !Contains(q, Network(p)) {
      var k :| 0 <= k < |out| && k != i && out[k] == q;
      assert q in out && q != p;
      MaximalDisjoint(p, q, input, Network(p));
    }
    assert Covered(out, Network(p)) && !Covered(rest, Network(p));
  }

  lemma MaximalDisjoint(p: Prefix, q: Prefix, input: seq<Prefix>, a: Addr)
    requires AllMasked(input) && Maximal(p, input) && Maximal(q, input) && p != q
    ensures !(Contains(p, a) && Contains(q, a))
  {
    NestedOrDisjoint(p, q);
  }

  lemma KeepCoversSame(input: seq<Prefix>, out: seq<Prefix>, a: Addr)
    requires AllMasked(input)
    requires forall p :: p in out ==> p in input
    requires forall p :: p in input ==> SwallowedByAny(out, p)
    ensures Covered(out, a) <==> Covered(input, a)
  {
    if Covered(input, a) {
      var p :| p in input && Contains(p, a);
      var q :| q in out && Swallows(q, p);
      SwallowsIsInclusion(q, p, a);
    }
  }

  // ---- classifyCIDRs ----

  /** One trimmed list entry after parsing: blank, an address or CIDR, or other text. */
  datatype Entry = Blank | Net(net: Prefix) | Text(text: string)

  datatype Classified = Classified(v4: seq<Prefix>, v6: seq<Prefix>, bad: seq<string>)

  function AddOnce(ps: seq<Prefix>, p: Prefix): seq<Prefix> {
    if p in ps then ps else ps + [p]
  }

  function Gather(acc: Classified, e: Entry): Classified {
    match e
    case Blank => acc
    case Text(s) => acc.(bad := acc.bad + [s])
    case Net(p) => if p.v6 then acc.(v6 := AddOnce(acc.v6, p)) else acc.(v4 := AddOnce(acc.v4, p))
  }

  function GatherAll(entries: seq<Entry>): Classified {
    if entries == [] then Classified([], [], [])
    else Gather(GatherAll(entries[..|entries| - 1]), entries[|entries| - 1])
  }

  function Classify(entries: seq<Entry>): Classified {
    var g := GatherAll(entries);
    Classified(Collapse(g.v4), Collapse(g.v6), g.bad)
  }

  method ClassifyCIDRs(entries: seq<Entry>) returns (c: Classified)
    ensures c == Classify(entries)
  {
    c := Classified([], [], []);
    for i := 0 to |entries|
      invariant c == GatherAll(entries[..i])
    {
      assert entries[..i + 1][..i] == entries[..i];
      match entries[i]
      case Blank =>
      case Text(s) => c := c.(bad := c.bad + [s]);
      case Net(p) =>
        if p.v6 {
          if p !in c.v6 { c := c.(v6 := c.v6 + [p]); }
        } else if p !in c.v4 {
          c := c.(v4 := c.v4 + [p]);
        }
    }
    assert entries[..|entries|] == entries;
    var v4 := CollapsePrefixes(c.v4);
    var v6 := CollapsePrefixes(c.v6);
    c := Classified(v4, v6, c.bad);
  }

  ghost predicate WellFormed(entries: seq<Entry>) {
    forall e :: e in entries && e.Net? ==> Masked(e.net)
  }

  /** An address an entry list names. */
  ghost predicate Named(entries: seq<Entry>, a: Addr) {
    exists e :: e in entries && e.Net? && Contains(e.net, a)
  }

  lemma {:induction false} GatherSplits(entries: seq<Entry>)
    ensures var g := GatherAll(entries);
      && (forall p :: p in g.v4 <==> !p.v6 && Net(p) in entries)
      && (forall p :: p in g.v6 <==> p.v6 && Net(p) in entries)
  {
    if entries != [] {
      var n := |entries| - 1;
      GatherSplits(entries[..n]);
      assert entries == entries[..n] + [entries[n]];
    }
  }

  /**
   `classifyCIDRs` loses and invents nothing: its two lists together cover exactly the
   addresses named, each list holds only its own family, and each is a minimal cover.
   */
  lemma ClassifyCoversNamed(entries: seq<Entry>)
    requires WellFormed(entries)
    ensures var c := Classify(entries);
      && AllMasked(c.v4) && AllMasked(c.v6)
      && (forall p :: p in c.v4 ==> !p.v6) && (forall p :: p in c.v6 ==> p.v6)
      && (forall a :: Covered(c.v4, a) <==> !a.v6 && Named(entries, a))
      && (forall a :: Covered(c.v6, a) <==> a.v6 && Named(entries, a))
      && (c.v4 == [] <==> forall e :: e in entries && e.Net? ==> e.net.v6)
      && (c.v6 == [] <==> forall e :: e in entries && e.Net? ==> !e.net.v6)
  {
    var g := GatherAll(entries);
    GatherSplits(entries);
    assert AllMasked(g.v4) && AllMasked(g.v6);
    CollapseIsMinimalCover(g.v4);
    CollapseIsMinimalCover(g.v6);
    forall a ensures Covered(g.v4, a) <==> !a.v6 && Named(entries, a) {
      if Named(entries, a) && !a.v6 {
        var e :| e in entries && e.Net? && Contains(e.net, a);
        assert e == Net(e.net);
        assert e.net in g.v4;
      }
      if Covered(g.v4, a) {
        var p :| p in g.v4 && Contains(p, a);
        assert Net(p) in entries;
      }
    }
    forall a ensures Covered(g.v6, a) <==> a.v6 && Named(entries, a) {
      if Named(entries, a) && a.v6 {
        var e :| e in entries && e.Net? && Contains(e.net, a);
        assert e == Net(e.net);
        assert e.net in g.v6;
      }
      if Covered(g.v6, a) {
        var p :| p in g.v6 && Contains(p, a);
        assert Net(p) in entries;
      }
    }
    CollapseEmpty(g.v4);
    CollapseEmpty(g.v6);
    if g.v4 == [] { forall e | e in entries && e.Net? ensures e.net.v6 { assert e == Net(e.net); } }
    else { assert g.v4[0] in g.v4; assert Net(g.v4[0]) in entries; }
    if g.v6 == [] { forall e | e in entries && e.Net? ensures !e.net.v6 { assert e == Net(e.net); } }
    else { assert g.v6[0] in g.v6; assert Net(g.v6[0]) in entries; }
  }

  lemma CollapseEmpty(ps: seq<Prefix>)
    requires AllMasked(ps)
    ensures Collapse(ps) == [] <==> ps == []
  {
    CollapseIsMinimalCover(ps);
    if ps != [] {
      NetworkInside(ps[0]);
      assert ps[0] in ps;
      assert Covered(ps, Network(ps[0]));
      assert Covered(Collapse(ps), Network(ps[0]));
    }
  }
}
