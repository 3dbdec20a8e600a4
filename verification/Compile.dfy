/**
 `Compile` of `internal/pbr/pbr.go`: from a profile to zones, bypass sets, and egresses with
 their fwmarks and routing tables. Warnings, MASQUERADE interfaces and flow offload are not
 part of this model.
 */
module Compile {
  import opened Sorting
  import opened Cidr
  import opened Profiles

  // ---- 32-bit words as sets of bit positions ----

  /** A 32-bit word, given by the positions of its one bits. */
  type Word = set<nat>

  predicate BitAt(n: nat, i: nat) { (n / Pow2(i)) % 2 == 1 }

  /** The low 32 bits of a number: Go's conversion to `uint32`. */
  function Bits(n: nat): Word { set i: nat | 0 <= i < 32 && BitAt(n, i) }

  // ---- the plan ----

  datatype Kind = WAN | Tunnel | Blackhole

  datatype Egress = Egress(tag: string, kind: Kind, iface: string, mark: Word, table: int, failClosed: bool)

  datatype Zone = Zone(
    name: string, tag: string, mark: Word,
    v4: seq<Prefix>, v6: seq<Prefix>, domains: seq<string>,
    srcV4: seq<Prefix>, srcV6: seq<Prefix>,
    srcMAC: seq<string>, srcIface: seq<string>, srcPort: seq<int>, srcScoped: bool)

  datatype Plan = Plan(
    table: string, mask: Word, egresses: seq<Egress>, zones: seq<Zone>,
    bypassV4: seq<Prefix>, bypassV6: seq<Prefix>)

  datatype Options = Options(
    table: string, markMask: nat, markStep: nat, tableBase: int, wanTable: int, rulePref: int,
    collectDomainZones: bool)

  /** `Options.withDefaults`. */
  function WithDefaults(o: Options): Options {
    Options(
      if o.table == "" then "velinx_pbr" else o.table,
      if o.markMask == 0 then 0x00ff0000 else o.markMask,
      if o.markStep == 0 then 0x00010000 else o.markStep,
      if o.tableBase == 0 then 151 else o.tableBase,
      if o.wanTable == 0 then 254 else o.wanTable,
      if o.rulePref == 0 then 150 else o.rulePref,
      o.collectDomainZones)
  }

  // ---- resolving an outbound tag ----

  datatype Resolved = Resolved(kind: Kind, iface: string)

  function FirstKernelMember(p: Profile, members: seq<string>): Option<string> {
    if members == [] then None
    else
      var e := EndpointByID(p.endpoints, members[0]);
      if e.Some? && KernelIface(e.value) != "" then Some(KernelIface(e.value))
      else FirstKernelMember(p, members[1..])
  }

  function ResolveEgress(p: Profile, tag: string): Option<Resolved> {
    if tag == DIRECT || tag == "" then Some(Resolved(WAN, ""))
    else if tag == BLOCK then Some(Resolved(Blackhole, ""))
    else
      match EndpointByID(p.endpoints, tag)
      case Some(e) => if KernelIface(e) != "" then Some(Resolved(Tunnel, KernelIface(e))) else None
      case None =>
        match GroupByID(p.groups, tag)
        case None => None
        case Some(g) =>
          match FirstKernelMember(p, g.members)
          case None => None
          case Some(ifc) => Some(Resolved(Tunnel, ifc))
  }

  /** An endpoint records addresses and none of them is IPv6. */
  predicate DeclaresOnlyV4(e: Endpoint) {
    e.localAddresses != [] && forall a :: a in e.localAddresses ==> ':' !in a
  }

  /** `egressV4OnlyPosture`. */
  predicate V4OnlyPosture(p: Profile, tag: string) {
    match EndpointByID(p.endpoints, tag)
    case None => false
    case Some(e) => e.engine == External || (e.engine == AmneziaWG && DeclaresOnlyV4(e))
  }

  // ---- names ----

  function NftChar(c: char): char {
    if 'a' <= c <= 'z' || 'A' <= c <= 'Z' || '0' <= c <= '9' || c == '_' then c else '_'
  }

  function NftName(id: string): string {
    if id == [] then [] else [NftChar(id[0])] + NftName(id[1..])
  }

  function Digit(d: nat): char
    requires d < 10
  {
    ['0', '1', '2', '3', '4', '5', '6', '7', '8', '9'][d]
  }

  function Itoa(n: nat): string {
    if n < 10 then [Digit(n)] else Itoa(n / 10) + [Digit(n % 10)]
  }

  lemma {:induction false} ItoaInjective(m: nat, n: nat)
    requires Itoa(m) == Itoa(n)
    ensures m == n
  {
    var a, b := Itoa(m), Itoa(n);
    assert a[|a| - 1] == Digit(m % 10) && b[|b| - 1] == Digit(n % 10);
    assert m % 10 == n % 10;
    ItoaLength(m);
    ItoaLength(n);
    if m >= 10 && n >= 10 {
      assert Itoa(m / 10) == a[..|a| - 1] && Itoa(n / 10) == b[..|b| - 1];
      ItoaInjective(m / 10, n / 10);
    }
  }

  lemma ItoaLength(n: nat)
    ensures |Itoa(n)| >= 1 && (|Itoa(n)| == 1 <==> n < 10)
  {}

  function Suffixed(base: string, i: nat): string { base + "_" + Itoa(i) }

  lemma SuffixedInjective(base: string, i: nat, j: nat)
    requires Suffixed(base, i) == Suffixed(base, j)
    ensures i == j
  {
    assert Suffixed(base, i)[|base| + 1..] == Itoa(i);
    assert Suffixed(base, j)[|base| + 1..] == Itoa(j);
    ItoaInjective(i, j);
  }

  /** The used names a numbering from `i` on can still run into. */
  ghost function Ahead(base: string, used: set<string>, i: nat): set<string> {
    set n | n in used && exists j: nat :: j >= i && n == Suffixed(base, j)
  }

  lemma AheadShrinks(base: string, used: set<string>, i: nat)
    requires Suffixed(base, i) in used
    ensures Ahead(base, used, i + 1) < Ahead(base, used, i)
    ensures |Ahead(base, used, i + 1)| < |Ahead(base, used, i)|
  {
    var n := Suffixed(base, i);
    assert n in Ahead(base, used, i);
    if n in Ahead(base, used, i + 1) {
      var j: nat :| j >= i + 1 && n == Suffixed(base, j);
      SuffixedInjective(base, i, j);
    }
    SmallerSet(Ahead(base, used, i + 1), Ahead(base, used, i));
  }

  lemma {:induction false} SmallerSet<T>(a: set<T>, b: set<T>)
    requires a < b
    ensures |a| < |b|
  {
    assert |b - a| > 0;
    assert b == a + (b - a);
    assert |b| == |a| + |b - a|;
  }

  function FreshFrom(base: string, used: set<string>, i: nat): (r: string)
    ensures r !in used
    decreases |Ahead(base, used, i)|
  {
    if Suffixed(base, i) in used then
      AheadShrinks(base, used, i);
      FreshFrom(base, used, i + 1)
    else Suffixed(base, i)
  }

  /** A set name no earlier zone took: the name itself, or its first free `_2`, `_3`, .... */
  function FreshName(name: string, used: set<string>): (r: string)
    ensures r !in used
    ensures name !in used ==> r == name
  {
    if name in used then FreshFrom(name, used, 2) else name
  }

  /** The renaming loop of `addZone`. */
  method Disambiguate(base: string, used: set<string>) returns (name: string)
    ensures name == FreshName(base, used)
  {
    name := base;
    if name in used {
      var i := 2;
      name := Suffixed(base, i);
      while name in used
        invariant i >= 2 && name == Suffixed(base, i)
        invariant FreshFrom(base, used, i) == FreshFrom(base, used, 2)
        decreases |Ahead(base, used, i)|
      {
        AheadShrinks(base, used, i);
        i := i + 1;
        name := Suffixed(base, i);
      }
    }
  }

  // ---- domain entries ----

  function Lower(s: string): string {
    if s == [] then []
    else [if 'A' <= s[0] <= 'Z' then (s[0] as int + 32) as char else s[0]] + Lower(s[1..])
  }

  function DropPrefix(s: string, pre: string): string {
    if pre <= s then s[|pre|..] else s
  }

  function DomainKey(s: string): string { DropPrefix(DropPrefix(Lower(s), "*."), ".") }

  predicate DomainLike(s: string) {
    '.' in s && forall c :: c in s ==> c !in " \t#!/"
  }

  function DomainKeys(bad: seq<string>): seq<string> {
    if bad == [] then []
    else
      var rest := DomainKeys(bad[..|bad| - 1]);
      var k := DomainKey(bad[|bad| - 1]);
      if DomainLike(k) && k !in rest then rest + [k] else rest
  }

  function NormalizeDomains(bad: seq<string>): seq<string> { Sort(DomainKeys(bad), StrLeq) }

  lemma {:induction false} KeysAre(bad: seq<string>)
    ensures Distinct(DomainKeys(bad))
    ensures forall d :: d in DomainKeys(bad) <==> DomainLike(d) && exists s :: s in bad && DomainKey(s) == d
  {
    if bad != [] {
      var n := |bad| - 1;
      KeysAre(bad[..n]);
      assert bad == bad[..n] + [bad[n]];
    }
  }

  /** A zone's domains: the keys of its entries that look like domains, each once, in order. */
  lemma DomainsAre(bad: seq<string>)
    ensures Sorted(NormalizeDomains(bad), StrLeq) && Distinct(NormalizeDomains(bad))
    ensures forall d :: d in NormalizeDomains(bad) <==> DomainLike(d) && exists s :: s in bad && DomainKey(s) == d
  {
    var ks := DomainKeys(bad);
    StrOrder();
    KeysAre(bad);
    SortSorts(ks, StrLeq);
    SortPermutes(ks, StrLeq);
    DistinctFromMultiset(ks, Sort(ks, StrLeq));
  }

  /** A leading wildcard label and a leading dot come off, in any case of letters. */
  lemma DomainKeyIs(s: string, pre: string, d: string)
    requires pre in {"", "*.", ".", "*.."} && Lower(s) == pre + d && !("*." <= d) && !("." <= d)
    ensures DomainKey(s) == d
  {
    if pre == "*.." { assert pre + d == "*." + ("." + d); }
    assert ("*." + ("." + d))[2..] == "." + d && ("." + d)[1..] == d && ("*." + d)[2..] == d;
    assert "" + d == d;
  }

  // ---- zones ----

  datatype Source = Source(cidrs: seq<Entry>, mac: seq<string>, iface: seq<string>, port: seq<int>)

  /** What the zone-building loops carry: the zones, the set names and the outbound tags used. */
  datatype Build = Build(zones: seq<Zone>, names: set<string>, tags: set<string>)

  function AddZone(b: Build, collect: bool, name: string, tag: string, cidrs: seq<Entry>, src: Option<Source>): Build {
    var c := Classify(cidrs);
    var s := if src.Some? then Classify(src.value.cidrs) else Classified([], [], []);
    var m := if src.Some? then src.value else Source([], [], [], []);
    var scoped := s.v4 != [] || s.v6 != [] || m.mac != [] || m.iface != [] || m.port != [];
    var domains := if collect then NormalizeDomains(c.bad) else [];
    if c.v4 == [] && c.v6 == [] && domains == [] && !scoped then b
    else
      var unused := FreshName(name, b.names);
      var z := Zone(unused, tag, {}, c.v4, c.v6, domains, s.v4, s.v6, m.mac, m.iface, m.port, scoped);
      Build(b.zones + [z], b.names + {unused}, b.tags + {tag})
  }

  function AsEntries(ps: seq<Prefix>): seq<Entry> {
    seq(|ps|, i requires 0 <= i < |ps| => Net(ps[i]))
  }

  /** Entries that survive the v4-only posture. */
  function KeptEntries(p: Profile, tag: string, es: seq<Entry>): seq<Entry> {
    var k := ResolveEgress(p, tag);
    if k.Some? && k.value.kind == Tunnel && V4OnlyPosture(p, tag) then AsEntries(Classify(es).v4) else es
  }

  function RuleStep(p: Profile, collect: bool, b: Build, r: Rule): Build {
    if r.disabled || r.isDefault then b
    else if r.ipCidr == [] && !HasSourceMatcher(r) then b
    else if ResolveEgress(p, r.outbound).None? then b
    else
      var cidrs := KeptEntries(p, r.outbound, r.ipCidr);
      var src := if HasSourceMatcher(r)
        then Some(Source(KeptEntries(p, r.outbound, r.sourceIP), r.sourceMAC, r.sourceIface, r.sourcePort))
        else None;
      if cidrs == [] && src.None? then b
      else AddZone(b, collect, "rule_" + NftName(r.id), r.outbound, cidrs, src)
  }

  function ListStep(p: Profile, collect: bool, b: Build, l: RoutingList): Build {
    var cidrs := l.manual + l.cidrCache;
    if !l.enabled || cidrs == [] || ResolveEgress(p, l.outbound).None? then b
    else
      var kept := KeptEntries(p, l.outbound, cidrs);
      if kept == [] then b
      else AddZone(b, collect, "list_" + NftName(l.id), l.outbound, kept, None)
  }

  function AfterRules(p: Profile, collect: bool, k: nat): Build
    requires k <= |p.rules|
  {
    if k == 0 then Build([], {}, {}) else RuleStep(p, collect, AfterRules(p, collect, k - 1), p.rules[k - 1])
  }

  function AfterLists(p: Profile, collect: bool, k: nat): Build
    requires k <= |p.lists|
  {
    if k == 0 then AfterRules(p, collect, |p.rules|)
    else ListStep(p, collect, AfterLists(p, collect, k - 1), p.lists[k - 1])
  }

  function Built(p: Profile, collect: bool): Build { AfterLists(p, collect, |p.lists|) }

  // ---- bypass, egresses, marks ----

  function BypassEntries(es: seq<Endpoint>): seq<Entry> {
    if es == [] then []
    else
      var e := es[|es| - 1];
      BypassEntries(es[..|es| - 1]) +
        (if e.enabled && KernelIface(e) != "" then [e.server, e.endpointIP] else [])
  }

  /** The sorted listing of the used tags other than `direct`. */
  function OtherTags(zones: seq<Zone>): seq<string> {
    if zones == [] then []
    else
      var rest := OtherTags(zones[..|zones| - 1]);
      var t := zones[|zones| - 1].tag;
      if t == DIRECT || t in rest then rest else Insert(t, rest, StrLeq)
  }

  function EgressFor(p: Profile, o: Options, i: nat, tag: string): Egress {
    var k := ResolveEgress(p, tag);
    var kind := if k.Some? then k.value.kind else WAN;
    var g := GroupByID(p.groups, tag);
    Egress(tag, kind, if k.Some? then k.value.iface else "",
           Bits((i + 2) * o.markStep), o.tableBase + i,
           kind == Tunnel && g.Some? && g.value.killSwitch)
  }

  function Egresses(p: Profile, o: Options, tags: seq<string>): seq<Egress> {
    [Egress(DIRECT, WAN, "", Bits(o.markStep), o.wanTable, false)] +
      seq(|tags|, i requires 0 <= i < |tags| => EgressFor(p, o, i, tags[i]))
  }

  /** The `markByTag` lookup: a tag's last egress, no mark when it has none. */
  function MarkByTag(es: seq<Egress>, tag: string): Word {
    if es == [] then {}
    else if es[|es| - 1].tag == tag then es[|es| - 1].mark
    else MarkByTag(es[..|es| - 1], tag)
  }

  function Stamp(zs: seq<Zone>, es: seq<Egress>): seq<Zone> {
    seq(|zs|, i requires 0 <= i < |zs| => zs[i].(mark := MarkByTag(es, zs[i].tag)))
  }

  predicate ZoneLeq(a: Zone, b: Zone) { StrLeq(a.name, b.name) }

  function CompilePlan(p: Profile, opt: Options): Plan {
    var o := WithDefaults(opt);
    var b := Built(p, o.collectDomainZones);
    var es := Egresses(p, o, OtherTags(b.zones));
    var own := Classify(BypassEntries(p.endpoints));
    Plan(o.table, Bits(o.markMask), es, Sort(Stamp(b.zones, es), ZoneLeq), own.v4, own.v6)
  }

  /** The zone-collecting loops of `Compile`, over rules and then routing lists. */
  method CollectZones(p: Profile, collect: bool) returns (b: Build)
    ensures b == Built(p, collect)
  {
    b := Build([], {}, {});
    for i := 0 to |p.rules|
      invariant b == AfterRules(p, collect, i)
    {
      b := RuleStep(p, collect, b, p.rules[i]);
    }
    for i := 0 to |p.lists|
      invariant b == AfterLists(p, collect, i)
    {
      b := ListStep(p, collect, b, p.lists[i]);
    }
  }

  /** The anti-loop bypass loop over enabled kernel endpoints. */
  method CollectBypass(es: seq<Endpoint>) returns (bypass: seq<Entry>)
    ensures bypass == BypassEntries(es)
  {
    bypass := [];
    for i := 0 to |es|
      invariant bypass == BypassEntries(es[..i])
    {
      assert es[..i + 1][..i] == es[..i];
      var e := es[i];
      if e.enabled && KernelIface(e) != "" {
        bypass := bypass + [e.server, e.endpointIP];
      }
    }
    assert es[..|es|] == es;
  }

  /** Marks and tables, one egress after another. */
  method AssignEgresses(p: Profile, o: Options, tags: seq<string>) returns (es: seq<Egress>)
    ensures es == Egresses(p, o, tags)
  {
    es := [Egress(DIRECT, WAN, "", Bits(o.markStep), o.wanTable, false)];
    for i := 0 to |tags|
      invariant es == Egresses(p, o, tags)[..i + 1]
    {
      es := es + [EgressFor(p, o, i, tags[i])];
    }
  }

  method StampZones(zs: seq<Zone>, es: seq<Egress>) returns (out: seq<Zone>)
    ensures out == Stamp(zs, es)
  {
    out := [];
    for i := 0 to |zs|
      invariant out == Stamp(zs, es)[..i]
    {
      out := out + [zs[i].(mark := MarkByTag(es, zs[i].tag))];
    }
  }

  /** `Compile`, in the order of the source. */
  method CompileProfile(p: Profile, opt: Options) returns (plan: Plan)
    ensures plan == CompilePlan(p, opt)
  {
    var o := WithDefaults(opt);
    var b := CollectZones(p, o.collectDomainZones);
    var bypass := CollectBypass(p.endpoints);
    var own := ClassifyCIDRs(bypass);
    TagsAreUsed(p, o.collectDomainZones);
    var others := SortedOthers(b.tags, b.zones);
    var es := AssignEgresses(p, o, others);
    var zones := StampZones(b.zones, es);
    plan := Plan(o.table, Bits(o.markMask), es, Sort(zones, ZoneLeq), own.v4, own.v6);
  }

  /** Ranging over the tag set in any order and sorting gives the one sorted listing. */
  method SortedOthers(tags: set<string>, ghost zones: seq<Zone>) returns (others: seq<string>)
    requires forall t :: t in tags <==> exists z :: z in zones && z.tag == t
    ensures others == OtherTags(zones)
  {
    others := [];
    var rest := tags;
    while rest != {}
      invariant rest <= tags
      invariant forall t :: t in others <==> t in tags && t !in rest && t != DIRECT
      invariant Distinct(others)
      decreases |rest|
    {
      var t :| t in rest;
      if t != DIRECT {
        others := others + [t];
      }
      rest := rest - {t};
    }
    ghost var unsorted := others;
    others := Sort(others, StrLeq);
    StrOrder();
    SortPermutes(unsorted, StrLeq);
    SortSorts(unsorted, StrLeq);
    DistinctFromMultiset(unsorted, others);
    OtherTagsListing(zones);
    SortedListingUnique(others, OtherTags(zones), StrLeq);
  }

  lemma {:induction false} OtherTagsListing(zones: seq<Zone>)
    ensures var ts := OtherTags(zones);
      && Sorted(ts, StrLeq) && Distinct(ts)
      && forall t :: t in ts <==> t != DIRECT && exists z :: z in zones && z.tag == t
  {
    if zones != [] {
      var n := |zones| - 1;
      var rest := OtherTags(zones[..n]);
      var t := zones[n].tag;
      OtherTagsListing(zones[..n]);
      assert zones == zones[..n] + [zones[n]];
      if t != DIRECT && t !in rest {
        StrOrder();
        InsertSorted(t, rest, StrLeq);
        InsertKeeps(t, rest, StrLeq);
        assert Distinct([t] + rest);
        assert multiset([t] + rest) == multiset{t} + multiset(rest);
        DistinctFromMultiset([t] + rest, Insert(t, rest, StrLeq));
        forall x ensures x in Insert(t, rest, StrLeq) <==> x == t || x in rest {
          assert x in Insert(t, rest, StrLeq) <==> x in multiset(Insert(t, rest, StrLeq));
        }
      }
      assert zones[n] in zones;
    }
  }

  ghost predicate TagsMatch(b: Build) {
    forall t :: t in b.tags <==> exists z :: z in b.zones && z.tag == t
  }

  lemma AddZoneTags(b: Build, collect: bool, name: string, tag: string, cidrs: seq<Entry>, src: Option<Source>)
    requires TagsMatch(b)
    ensures TagsMatch(AddZone(b, collect, name, tag, cidrs, src))
  {
    var n := AddZone(b, collect, name, tag, cidrs, src);
    if n != b {
      var z := n.zones[|b.zones|];
      assert n.zones == b.zones + [z];
      assert z in n.zones;
    }
  }

  lemma {:induction false} TagsAreUsed(p: Profile, collect: bool)
    ensures TagsMatch(Built(p, collect))
  {
    TagsAfterLists(p, collect, |p.lists|);
  }

  lemma {:induction false} TagsAfterRules(p: Profile, collect: bool, k: nat)
    requires k <= |p.rules|
    ensures TagsMatch(AfterRules(p, collect, k))
  {
    if k > 0 {
      TagsAfterRules(p, collect, k - 1);
      var r := p.rules[k - 1];
      AddZoneTags(AfterRules(p, collect, k - 1), collect, "rule_" + NftName(r.id), r.outbound,
                  KeptEntries(p, r.outbound, r.ipCidr),
                  if HasSourceMatcher(r)
                  then Some(Source(KeptEntries(p, r.outbound, r.sourceIP), r.sourceMAC, r.sourceIface, r.sourcePort))
                  else None);
    }
  }

  lemma {:induction false} TagsAfterLists(p: Profile, collect: bool, k: nat)
    requires k <= |p.lists|
    ensures TagsMatch(AfterLists(p, collect, k))
  {
    if k == 0 {
      TagsAfterRules(p, collect, |p.rules|);
    } else {
      TagsAfterLists(p, collect, k - 1);
      var l := p.lists[k - 1];
      AddZoneTags(AfterLists(p, collect, k - 1), collect, "list_" + NftName(l.id), l.outbound,
                  KeptEntries(p, l.outbound, l.manual + l.cidrCache), None);
    }
  }
}
