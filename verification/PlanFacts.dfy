/**
 What `Compile` guarantees about every plan: well-formed zones under distinct set names,
 distinct non-zero marks inside the mask, distinct tables, each zone carrying its own
 egress's mark, and the exact number of egresses for which the default numbering holds.
 */
module PlanFacts {
  import opened Sorting
  import opened Cidr
  import opened Profiles
  import opened Compile
  import opened Datapath
  import opened PolicyRouting
  import opened PlaneEquivalence
  import opened ApplyTeardown
  import Nftables
  import Iptables

  // ---- binary numerals ----

  lemma ModDouble(n: nat, m: nat)
    requires m > 0
    ensures n % (2 * m) == n % m + m * ((n / m) % 2)
  {
    var q := n / m;
    DivideTwice(n, m, 2);
    assert n / (2 * m) == q / 2 by { assert m * 2 == 2 * m; }
    assert n == m * q + n % m;
    assert n == (2 * m) * (q / 2) + n % (2 * m);
    assert (2 * m) * (q / 2) == m * (2 * (q / 2));
    assert q == 2 * (q / 2) + q % 2;
    assert m * q == m * (2 * (q / 2)) + m * (q % 2);
  }

  /** Reading the bits back gives the number modulo the width. */
  lemma {:induction false} ValueOfBits(n: nat, k: nat)
    requires k <= 32
    ensures WordValue(Bits(n), k) == n % Pow2(k)
  {
    if k > 0 {
      ValueOfBits(n, k - 1);
      ModDouble(n, Pow2(k - 1));
      assert k - 1 in Bits(n) <==> BitAt(n, k - 1);
    }
  }

  lemma BitsInjective(m: nat, n: nat)
    requires m < Pow2(32) && n < Pow2(32) && Bits(m) == Bits(n)
    ensures m == n
  {
    ValueOfBits(m, 32);
    ValueOfBits(n, 32);
    SmallMod(m, Pow2(32));
    SmallMod(n, Pow2(32));
  }

  lemma SmallMod(m: nat, d: nat)
    requires m < d
    ensures m % d == m
  {
    DivideUnique(m, d, 0, m);
  }

  lemma LowBitsClear(n: nat, i: nat)
    requires i < 16
    ensures !BitAt(n * 0x10000, i)
  {
    Sizes();
    Pow2Adds(i, 16 - i);
    assert Pow2(16 - i) == 2 * Pow2(15 - i);
    EvenQuotient(n, Pow2(i), Pow2(15 - i), 0x10000);
  }

  lemma EvenQuotient(n: nat, a: nat, c: nat, k: nat)
    requires a > 0 && a * (2 * c) == k
    ensures (n * k / a) % 2 == 0
  {
    Shuffle(n, a, 2 * c);
    assert n * k == a * (n * (2 * c)) + 0;
    DivideUnique(n * k, a, n * (2 * c), 0);
    Shuffle(n, 2, c);
  }

  /** Multiplying by 2^16 moves every bit up by sixteen. */
  lemma ShiftedBit(n: nat, i: nat)
    requires BitAt(n * 0x10000, i)
    ensures i >= 16 && BitAt(n, i - 16)
  {
    Sizes();
    if i < 16 {
      LowBitsClear(n, i);
    } else {
      Pow2Adds(16, i - 16);
      DivideTwice(n * 0x10000, 0x10000, Pow2(i - 16));
      DivideUnique(n * 0x10000, 0x10000, n, 0);
    }
  }

  lemma Shuffle(a: nat, b: nat, c: nat)
    ensures a * (b * c) == b * (a * c)
  {
    assert a * (b * c) == (a * b) * c;
    assert (a * b) * c == (b * a) * c;
    assert (b * a) * c == b * (a * c);
  }

  lemma {:induction false} ByteBits(n: nat, i: nat)
    requires n < 256 && BitAt(n, i)
    ensures i < 8
  {
    assert Pow2(8) == 256;
    if i >= 8 {
      Pow2Adds(8, i - 8);
      TimesAtLeast(256, Pow2(i - 8));
      DivideUnique(n, Pow2(i), 0, n);
    }
  }

  lemma MaskBit(j: nat)
    requires j < 8
    ensures BitAt(0x00ff0000, j + 16)
  {
    Sizes();
    Pow2Adds(16, j);
    DivideTwice(0xff0000, 0x10000, Pow2(j));
    FullByte(j);
  }

  lemma {:induction false} FullByte(j: nat)
    requires j < 8
    ensures (255 / Pow2(j)) % 2 == 1
  {
    assert Pow2(0) == 1;
    assert Pow2(1) == 2;
    assert Pow2(2) == 4;
    assert Pow2(3) == 8;
    assert Pow2(4) == 16;
    assert Pow2(5) == 32;
    assert Pow2(6) == 64;
    assert Pow2(7) == 128;
  }

  /** The default mark numbering: marks 1 to 255 are non-zero, inside the mask and distinct. */
  lemma DefaultMarks(m: nat, n: nat)
    requires 0 < m < 256 && 0 < n < 256
    ensures Bits(m * 0x10000) != {} && Bits(m * 0x10000) <= Bits(0x00ff0000)
    ensures Bits(m * 0x10000) == Bits(n * 0x10000) ==> m == n
  {
    Sizes();
    Pow2Adds(16, 16);
    forall i | i in Bits(m * 0x10000) ensures i in Bits(0x00ff0000) {
      ShiftedBit(m, i);
      ByteBits(m, i - 16);
      MaskBit(i - 16);
    }
    ValueOfBits(m * 0x10000, 32);
    SmallMod(m * 0x10000, Pow2(32));
    EmptyWord(32);
    if Bits(m * 0x10000) == Bits(n * 0x10000) { BitsInjective(m * 0x10000, n * 0x10000); }
  }

  lemma {:induction false} EmptyWord(k: nat)
    ensures WordValue({}, k) == 0
  {
    if k > 0 { EmptyWord(k - 1); }
  }

  // ---- zones ----

  ghost predicate GoodBuild(p: Profile, b: Build) {
    && NamesDistinct(b.zones)
    && (forall n :: n in b.names <==> exists z :: z in b.zones && z.name == n)
    && (forall z :: z in b.zones ==> GoodZone(z) && ResolveEgress(p, z.tag).Some?)
  }

  lemma AddZoneGood(p: Profile, b: Build, collect: bool, name: string, tag: string, cidrs: seq<Entry>,
        src: Option<Source>)
    requires GoodBuild(p, b) && ResolveEgress(p, tag).Some?
    ensures GoodBuild(p, AddZone(b, collect, name, tag, cidrs, src))
  {
    var n := AddZone(b, collect, name, tag, cidrs, src);
    if n != b {
      var z := n.zones[|b.zones|];
      assert n.zones == b.zones + [z];
      assert z in n.zones;
      forall y | y in b.zones ensures y.name != z.name && y in n.zones { assert y.name in b.names; }
    }
  }

  function RuleSource(p: Profile, r: Rule): Option<Source> {
    if HasSourceMatcher(r)
    then Some(Source(KeptEntries(p, r.outbound, r.sourceIP), r.sourceMAC, r.sourceIface, r.sourcePort))
    else None
  }

  lemma {:induction false} RulesGood(p: Profile, collect: bool, k: nat)
    requires k <= |p.rules|
    ensures GoodBuild(p, AfterRules(p, collect, k))
  {
    if k > 0 {
      RulesGood(p, collect, k - 1);
      var r, b := p.rules[k - 1], AfterRules(p, collect, k - 1);
      if ResolveEgress(p, r.outbound).Some? {
        AddZoneGood(p, b, collect, "rule_" + NftName(r.id), r.outbound,
            KeptEntries(p, r.outbound, r.ipCidr), RuleSource(p, r));
      }
    }
  }

  lemma {:induction false} ListsGood(p: Profile, collect: bool, k: nat)
    requires k <= |p.lists|
    ensures GoodBuild(p, AfterLists(p, collect, k))
  {
    if k == 0 {
      RulesGood(p, collect, |p.rules|);
    } else {
      ListsGood(p, collect, k - 1);
      var l, b := p.lists[k - 1], AfterLists(p, collect, k - 1);
      if ResolveEgress(p, l.outbound).Some? {
        AddZoneGood(p, b, collect, "list_" + NftName(l.id), l.outbound,
            KeptEntries(p, l.outbound, l.manual + l.cidrCache), None);
      }
    }
  }

  // ---- names nft can take ----

  predicate SafeName(s: string) {
    forall c :: c in s ==> 'a' <= c <= 'z' || 'A' <= c <= 'Z' || '0' <= c <= '9' || c == '_'
  }

  lemma {:induction false} SafeId(id: string)
    ensures SafeName(NftName(id)) && |NftName(id)| == |id|
  {
    if id != [] { SafeId(id[1..]); }
  }

  lemma {:induction false} SafeNumber(n: nat)
    ensures SafeName(Itoa(n))
  {
    if n >= 10 { SafeNumber(n / 10); }
  }

  lemma {:induction false} SafeFresh(base: string, used: set<string>, i: nat)
    requires SafeName(base)
    ensures SafeName(FreshFrom(base, used, i)) && base <= FreshFrom(base, used, i)
    decreases |Ahead(base, used, i)|
  {
    SafeNumber(i);
    if Suffixed(base, i) in used {
      AheadShrinks(base, used, i);
      SafeFresh(base, used, i + 1);
    }
  }

  /** A zone's set name is its origin and its id in letters, digits and underscores, with a number when taken. */
  predicate NamedAfter(p: Profile, z: Zone) {
    SafeName(z.name) &&
    ((exists r :: r in p.rules && "rule_" + NftName(r.id) <= z.name) ||
     (exists l :: l in p.lists && "list_" + NftName(l.id) <= z.name))
  }

  lemma AddZoneNamed(b: Build, collect: bool, name: string, tag: string, cidrs: seq<Entry>, src: Option<Source>)
    requires SafeName(name)
    ensures var n := AddZone(b, collect, name, tag, cidrs, src);
      n == b || exists z :: n.zones == b.zones + [z] && SafeName(z.name) && name <= z.name
  {
    var n := AddZone(b, collect, name, tag, cidrs, src);
    SafeFresh(name, b.names, 2);
    if n != b { assert n.zones == b.zones + [n.zones[|b.zones|]]; }
  }

  lemma {:induction false} RulesNamed(p: Profile, collect: bool, k: nat)
    requires k <= |p.rules|
    ensures forall z :: z in AfterRules(p, collect, k).zones ==> NamedAfter(p, z)
  {
    if k > 0 {
      RulesNamed(p, collect, k - 1);
      var r, b := p.rules[k - 1], AfterRules(p, collect, k - 1);
      SafeId(r.id);
      AddZoneNamed(b, collect, "rule_" + NftName(r.id), r.outbound, KeptEntries(p, r.outbound, r.ipCidr),
                   RuleSource(p, r));
      assert r in p.rules;
    }
  }

  lemma {:induction false} ListsNamed(p: Profile, collect: bool, k: nat)
    requires k <= |p.lists|
    ensures forall z :: z in AfterLists(p, collect, k).zones ==> NamedAfter(p, z)
  {
    if k == 0 {
      RulesNamed(p, collect, |p.rules|);
    } else {
      ListsNamed(p, collect, k - 1);
      var l, b := p.lists[k - 1], AfterLists(p, collect, k - 1);
      SafeId(l.id);
      AddZoneNamed(b, collect, "list_" + NftName(l.id), l.outbound, KeptEntries(p, l.outbound, l.manual + l.cidrCache),
                   None);
      assert l in p.lists;
    }
  }

  /** Every zone of every plan is named so, whatever the ids contain. */
  lemma ZoneNamesSafe(p: Profile, opt: Options, z: Zone)
    requires z in CompilePlan(p, opt).zones
    ensures NamedAfter(p, z)
  {
    var collect := WithDefaults(opt).collectDomainZones;
    PlanZones(p, opt);
    var y :| y in Built(p, collect).zones && z == y.(mark := MarkByTag(CompilePlan(p, opt).egresses, y.tag));
    ListsNamed(p, collect, |p.lists|);
    assert NamedAfter(p, y);
  }

  lemma ZoneOrder()
    ensures Preorder(ZoneLeq)
  {
    StrOrder();
  }

  /** The plan's zones are the built ones with their egress's mark, sorted by set name. */
  lemma PlanZones(p: Profile, opt: Options)
    ensures var o := WithDefaults(opt); var b := Built(p, o.collectDomainZones); var pl := CompilePlan(p, opt);
      && Sorted(pl.zones, ZoneLeq) && NamesDistinct(pl.zones)
      && (forall z :: z in pl.zones ==> exists y :: y in b.zones && z == y.(mark := MarkByTag(pl.egresses, y.tag)))
      && (forall y :: y in b.zones ==> y.(mark := MarkByTag(pl.egresses, y.tag)) in pl.zones)
  {
    var o := WithDefaults(opt);
    var b, pl := Built(p, o.collectDomainZones), CompilePlan(p, opt);
    var st := Stamp(b.zones, pl.egresses);
    ListsGood(p, o.collectDomainZones, |p.lists|);
    ZoneOrder();
    SortSorts(st, ZoneLeq);
    SortPermutes(st, ZoneLeq);
    assert NamesDistinct(st);
    PermutedNames(st, pl.zones);
    forall z | z in pl.zones ensures exists y :: y in b.zones && z == y.(mark := MarkByTag(pl.egresses, y.tag)) {
      var i :| 0 <= i < |st| && st[i] == z;
      assert b.zones[i] in b.zones;
    }
    forall y | y in b.zones ensures y.(mark := MarkByTag(pl.egresses, y.tag)) in pl.zones {
      var i :| 0 <= i < |b.zones| && b.zones[i] == y;
      assert st[i] in st;
    }
  }

  lemma PermutedNames(s: seq<Zone>, t: seq<Zone>)
    requires NamesDistinct(s) && multiset(s) == multiset(t)
    ensures NamesDistinct(t)
  {
    assert Distinct(s);
    DistinctFromMultiset(s, t);
    forall i, j | 0 <= i < j < |t| ensures t[i].name != t[j].name {
      assert t[i] in multiset(t) && t[j] in multiset(t);
      assert t[i] in s && t[j] in s;
      var a :| 0 <= a < |s| && s[a] == t[i];
      var b :| 0 <= b < |s| && s[b] == t[j];
    }
  }

  // ---- egresses ----

  lemma {:induction false} MarkByTagOwn(es: seq<Egress>, i: nat)
    requires i < |es| && forall a, b :: 0 <= a < b < |es| ==> es[a].tag != es[b].tag
    ensures MarkByTag(es, es[i].tag) == es[i].mark
  {
    if i < |es| - 1 {
      assert es[..|es| - 1][i] == es[i];
      MarkByTagOwn(es[..|es| - 1], i);
    }
  }

  ghost predicate DefaultNumbering(opt: Options) {
    opt.markMask in {0, 0x00ff0000} && opt.markStep in {0, 0x10000} && opt.tableBase in {0, 151}
        && opt.wanTable in {0, 254}
  }

  /** How many egresses besides WAN the profile uses. */
  ghost function EgressCount(p: Profile, opt: Options): nat {
    |OtherTags(Built(p, opt.collectDomainZones).zones)|
  }

  lemma EgressShape(p: Profile, opt: Options)
    requires DefaultNumbering(opt)
    ensures var pl := CompilePlan(p, opt); var ts := OtherTags(Built(p, opt.collectDomainZones).zones);
      && |pl.egresses| == |ts| + 1 && pl.mask == Bits(0x00ff0000)
      && pl.egresses[0] == Egress(DIRECT, WAN, "", Bits(0x10000), 254, false)
      && (forall i :: 0 < i <= |ts| ==>
            pl.egresses[i].tag == ts[i - 1] && pl.egresses[i].mark == Bits((i + 1) * 0x10000)
                && pl.egresses[i].table == 150 + i)
      && (forall a, b :: 0 <= a < b < |pl.egresses| ==> pl.egresses[a].tag != pl.egresses[b].tag)
  {
    var zs := Built(p, opt.collectDomainZones).zones;
    OtherTagsListing(zs);
    NumberedEgresses(p, WithDefaults(opt), OtherTags(zs));
  }

  lemma NumberedEgresses(p: Profile, o: Options, ts: seq<string>)
    requires o.markStep == 0x10000 && o.tableBase == 151 && o.wanTable == 254 && Distinct(ts) && DIRECT !in ts
    ensures var es := Egresses(p, o, ts);
      && |es| == |ts| + 1 && es[0] == Egress(DIRECT, WAN, "", Bits(0x10000), 254, false)
      && (forall i :: 0 < i <= |ts| ==>
            es[i].tag == ts[i - 1] && es[i].mark == Bits((i + 1) * 0x10000) && es[i].table == 150 + i)
      && (forall a, b :: 0 <= a < b < |es| ==> es[a].tag != es[b].tag)
  {
    var es := Egresses(p, o, ts);
    forall i | 0 < i <= |ts| ensures es[i] == EgressFor(p, o, i - 1, ts[i - 1]) {}
    forall a, b | 0 <= a < b < |es| ensures es[a].tag != es[b].tag {
      assert es[b].tag == ts[b - 1] && ts[b - 1] in ts;
    }
  }

  // ---- what an egress owes to the profile ----

  /** The kernel device of an endpoint: that of an adopted tunnel, or the program's own of an AmneziaWG one. */
  predicate HasDevice(e: Endpoint, iface: string) {
    iface != "" && ((e.engine == External && iface == e.ifaceToken)
      || (e.engine == AmneziaWG && iface == ['w', 'r', '-'] + e.ifaceToken))
  }

  lemma DeviceIs(e: Endpoint, iface: string)
    ensures HasDevice(e, iface) <==> iface != "" && KernelIface(e) == iface
  {}

  predicate MemberHasDevice(p: Profile, m: string, iface: string) {
    EndpointByID(p.endpoints, m).Some? && HasDevice(EndpointByID(p.endpoints, m).value, iface)
  }

  /** The first member of the group with a kernel device has this one. */
  ghost predicate FirstDevice(p: Profile, members: seq<string>, iface: string) {
    exists j :: 0 <= j < |members| && MemberHasDevice(p, members[j], iface)
      && forall i, other :: 0 <= i < j ==> !MemberHasDevice(p, members[i], other)
  }

  lemma {:induction false} FirstMemberIs(p: Profile, members: seq<string>, iface: string)
    requires FirstKernelMember(p, members) == Some(iface)
    ensures FirstDevice(p, members, iface)
  {
    var e := EndpointByID(p.endpoints, members[0]);
    if e.Some? && KernelIface(e.value) != "" {
      assert MemberHasDevice(p, members[0], iface);
    } else {
      FirstMemberIs(p, members[1..], iface);
      var j :| 0 <= j < |members| - 1 && MemberHasDevice(p, members[1..][j], iface)
        && forall i, other :: 0 <= i < j ==> !MemberHasDevice(p, members[1..][i], other);
      assert members[j + 1] == members[1..][j];
      forall i, other | 0 <= i < j + 1 ensures !MemberHasDevice(p, members[i], other) {
        if i > 0 { assert members[i] == members[1..][i - 1]; }
      }
    }
  }

  /** What the profile says an outbound tag leads to, in its own fields. */
  ghost predicate LeadsTo(p: Profile, tag: string, kind: Kind, iface: string) {
    if tag == "direct" || tag == "" then kind == WAN && iface == ""
    else if tag == "block" then kind == Blackhole && iface == ""
    else
      && kind == Tunnel
      && if EndpointByID(p.endpoints, tag).Some? then HasDevice(EndpointByID(p.endpoints, tag).value, iface)
         else GroupByID(p.groups, tag).Some? && FirstDevice(p, GroupByID(p.groups, tag).value.members, iface)
  }

  lemma ResolvedLeads(p: Profile, tag: string)
    requires ResolveEgress(p, tag).Some?
    ensures LeadsTo(p, tag, ResolveEgress(p, tag).value.kind, ResolveEgress(p, tag).value.iface)
  {
    var e, g := EndpointByID(p.endpoints, tag), GroupByID(p.groups, tag);
    if tag !in {DIRECT, BLOCK, ""} && e.None? {
      FirstMemberIs(p, g.value.members, FirstKernelMember(p, g.value.members).value);
    }
  }

  /** The group of that name, if it is one, asks for a kill switch. */
  predicate AsksKillSwitch(p: Profile, tag: string) {
    GroupByID(p.groups, tag).Some? && GroupByID(p.groups, tag).value.killSwitch
  }

  /**
   Every compiled egress leads where the profile says, and fails closed exactly when it is a
   tunnel whose group asks for it; the first is the uplink and never does.
   */
  lemma EgressesStem(p: Profile, opt: Options, e: Egress)
    requires DefaultNumbering(opt) && e in CompilePlan(p, opt).egresses
    ensures LeadsTo(p, e.tag, e.kind, e.iface)
    ensures e.failClosed <==> e.kind == Tunnel && AsksKillSwitch(p, e.tag)
  {
    var o, ts := WithDefaults(opt), OtherTags(Built(p, opt.collectDomainZones).zones);
    if i: nat :| i < |ts| && e == EgressFor(p, o, i, ts[i]) {
      TagResolves(p, opt.collectDomainZones, ts[i]);
      EgressStems(p, o, i, ts[i]);
    } else {
      NamedEgress(p, o, ts, e);
    }
  }

  lemma NamedEgress(p: Profile, o: Options, ts: seq<string>, e: Egress)
    requires e in Egresses(p, o, ts)
    ensures e == Egress(DIRECT, WAN, "", Bits(o.markStep), o.wanTable, false)
        || exists i: nat :: i < |ts| && e == EgressFor(p, o, i, ts[i])
  {
    var es := Egresses(p, o, ts);
    var i :| 0 <= i < |es| && es[i] == e;
    if i > 0 { assert es[i] == EgressFor(p, o, i - 1, ts[i - 1]); }
  }

  lemma TagResolves(p: Profile, collect: bool, t: string)
    requires t in OtherTags(Built(p, collect).zones)
    ensures ResolveEgress(p, t).Some?
  {
    OtherTagsListing(Built(p, collect).zones);
    ListsGood(p, collect, |p.lists|);
  }

  lemma EgressStems(p: Profile, o: Options, i: nat, t: string)
    requires ResolveEgress(p, t).Some?
    ensures var e := EgressFor(p, o, i, t);
      LeadsTo(p, t, e.kind, e.iface) && (e.failClosed <==> e.kind == Tunnel && AsksKillSwitch(p, t))
  {
    ResolvedLeads(p, t);
  }

  /**
   With the default numbering and at most 254 marks, every compiled plan is well formed:
   marks are non-zero, inside the mask and distinct, and each zone carries the mark of the
   egress its rule or list names.
   */
  lemma CompiledPlanGood(p: Profile, opt: Options)
    requires DefaultNumbering(opt) && EgressCount(p, opt) <= 254
    ensures GoodPlan(CompilePlan(p, opt))
  {
    var pl := CompilePlan(p, opt);
    var b := Built(p, opt.collectDomainZones);
    EgressShape(p, opt);
    ListsGood(p, opt.collectDomainZones, |p.lists|);
    PlanZones(p, opt);
    NumberedMarks(pl.egresses);
    forall z | z in pl.zones
      ensures GoodZone(z) && exists e :: e in pl.egresses && e.tag == z.tag && e.mark == z.mark
    {
      var y :| y in b.zones && z == y.(mark := MarkByTag(pl.egresses, y.tag));
      ZoneEgress(p, opt, y);
    }
  }

  /** Marks counted up from one step are distinct, non-zero and inside the mask. */
  lemma NumberedMarks(es: seq<Egress>)
    requires |es| <= 255 && forall i :: 0 <= i < |es| ==> es[i].mark == Bits((i + 1) * 0x10000)
    ensures forall i, j :: 0 <= i < j < |es| ==> es[i].mark != es[j].mark
    ensures forall e :: e in es ==> e.mark != {} && e.mark <= Bits(0x00ff0000)
  {
    forall i, j | 0 <= i < j < |es| ensures es[i].mark != es[j].mark {
      DefaultMarks(i + 1, j + 1);
    }
    forall e | e in es ensures e.mark != {} && e.mark <= Bits(0x00ff0000) {
      var i :| 0 <= i < |es| && es[i] == e;
      DefaultMarks(i + 1, 1);
    }
  }

  lemma ZoneEgress(p: Profile, opt: Options, y: Zone)
    requires DefaultNumbering(opt) && y in Built(p, opt.collectDomainZones).zones
    ensures var pl := CompilePlan(p, opt);
      exists e :: e in pl.egresses && e.tag == y.tag && e.mark == MarkByTag(pl.egresses, y.tag)
  {
    var zs, es := Built(p, opt.collectDomainZones).zones, CompilePlan(p, opt).egresses;
    EgressShape(p, opt);
    OtherTagsListing(zs);
    var i := 0;
    if y.tag != DIRECT {
      assert y.tag in OtherTags(zs);
      var j :| 0 <= j < |OtherTags(zs)| && OtherTags(zs)[j] == y.tag;
      i := j + 1;
    }
    assert es[i].tag == y.tag && es[i] in es;
    MarkByTagOwn(es, i);
  }

  /**
   The table bound, exactly: no egress table is the main table if and only if the profile
   uses at most 103 egresses besides WAN, and none is one of the kernel's own three tables
   if and only if it uses at most 102. The tables of distinct egresses always differ.
   */
  lemma TableBound(p: Profile, opt: Options)
    requires DefaultNumbering(opt)
    ensures var es := CompilePlan(p, opt).egresses;
      && (forall i, j :: 0 < i < j < |es| ==> es[i].table != es[j].table)
      && ((forall i :: 0 < i < |es| ==> es[i].table != MAIN_TABLE) <==> EgressCount(p, opt) <= 103)
      && ((forall i :: 0 < i < |es| ==> es[i].table !in {253, MAIN_TABLE, 255}) <==> EgressCount(p, opt) <= 102)
  {
    EgressShape(p, opt);
    var es := CompilePlan(p, opt).egresses;
    if EgressCount(p, opt) >= 104 { assert es[104].table == MAIN_TABLE; }
    if EgressCount(p, opt) >= 103 { assert es[103].table == 253; }
  }

  lemma CompiledTablesDistinct(p: Profile, opt: Options)
    requires DefaultNumbering(opt)
    ensures TablesDistinct(NonWan(CompilePlan(p, opt)))
  {
    var pl := CompilePlan(p, opt);
    EgressShape(p, opt);
    var es := NonWanOf(pl.egresses);
    TailTables(pl.egresses, |pl.egresses|);
    assert pl.egresses[..|pl.egresses|] == pl.egresses;
    SortPermutes(es, MarkLeq);
    PermutedTables(es, NonWan(pl));
  }

  lemma PermutedTables(s: seq<Egress>, t: seq<Egress>)
    requires TablesDistinct(s) && multiset(s) == multiset(t)
    ensures TablesDistinct(t)
  {
    assert Distinct(s);
    DistinctFromMultiset(s, t);
    forall i, j | 0 <= i < j < |t| ensures t[i].table != t[j].table {
      assert t[i] in multiset(s) && t[j] in multiset(s);
      var a :| 0 <= a < |s| && s[a] == t[i];
      var b :| 0 <= b < |s| && s[b] == t[j];
    }
  }

  lemma {:induction false} TailTables(es: seq<Egress>, n: nat)
    requires 0 < n <= |es| && es[0].kind == WAN && forall i :: 0 < i < |es| ==> es[i].table == 150 + i
    ensures TablesDistinct(NonWanOf(es[..n]))
    ensures forall e :: e in NonWanOf(es[..n]) ==> e.table < 150 + n
  {
    assert es[..n][..n - 1] == es[..n - 1];
    if n == 1 {
      assert NonWanOf(es[..0]) == [];
    } else {
      TailTables(es, n - 1);
    }
  }

  /**
   The main theorem for profiles: with the default numbering and at most 103 egresses
   besides WAN, once `Apply` reports success the two planes of the compiled plan send every
   packet of a fresh flow the same way, namely as the decision says. A blank source entry
   loosens the plan on one plane; then they do so where that chooses the same table.
   */
  lemma CompiledPlanesAgree(p: Profile, opt: Options, base: Kernel, s86: Word, k: Packet, ct: Word)
    requires DefaultNumbering(opt) && EgressCount(p, opt) <= 103
    requires var pl := CompilePlan(p, opt);
      && NoDomains(pl) && Iptables.NoPluses(pl) && CleanBase(pl, WithDefaults(opt), base)
      && ApplyResult(pl, WithDefaults(opt), base).ok
      && IgnoresOwned(base.rules4, pl.mask) && IgnoresOwned(base.rules6, pl.mask)
      && Fresh(pl, k.mark) && Fresh(pl, ct) && (s86 == {} || k.mark != s86)
    ensures var pl, o, a := CompilePlan(p, opt), WithDefaults(opt), DstAddr(k);
      var loose := Iptables.LoosePlan(pl);
      && Consulted(Rules(NftKernel(pl, o, base), k.v6), a, NftMark(pl, k, ct)) == SpecTables(pl, o, base, k)
      && Consulted(Rules(IptKernel(pl, o, base), k.v6), a, IptMark(pl, s86, k, ct)) == SpecTables(loose, o, base, k)
      && (Iptables.CleanSources(pl) ==> loose == pl)
      && (ChosenTable(pl, k) == ChosenTable(loose, k) ==>
            forall up :: Lookup(NftKernel(pl, o, base), a, NftMark(pl, k, ct), up)
                      == Lookup(IptKernel(pl, o, base), a, IptMark(pl, s86, k, ct), up))
  {
    CompiledPlanGood(p, opt);
    CompiledTablesDistinct(p, opt);
    PlanesAgree(CompilePlan(p, opt), WithDefaults(opt), base, s86, k, ct);
  }
}
