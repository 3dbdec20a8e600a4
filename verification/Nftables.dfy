/**
 The nft plane: the `wr_mark` chain of `internal/pbr/render.go`, line by line, and what the
 kernel does with it. Set declarations are `Datapath.DeclaredSets`.
 */
module Nftables {
  import opened Cidr
  import opened Compile
  import opened Datapath

  datatype NftMatch =
    | IifName(names: seq<string>)
    | EtherSaddr(macs: seq<string>)
    | TransportSport(ports: seq<int>)
    | Saddr(v6: bool, src: SetId)
    | Daddr(v6: bool, dst: SetId)
    | CtMark(mask: Word, value: Word)

  /** `meta mark set meta mark & ~clear | put`, with or without a final `accept`; or the save. */
  datatype NftAction = MarkSet(clear: Word, put: Word, accept: bool) | CtSave

  datatype NftRule = NftRule(matches: seq<NftMatch>, action: NftAction)

  // ---- meaning ----

  predicate Matches(m: NftMatch, sets: Sets, k: Packet, s: Marks) {
    match m
    case IifName(names) => exists n :: n in names && IfaceMatches(n, k.iif)
    case EtherSaddr(macs) => k.mac in macs
    case TransportSport(ports) => k.l4 != OtherL4 && k.sport in ports
    case Saddr(v6, id) => k.v6 == v6 && InSet(sets, id, SrcAddr(k))
    case Daddr(v6, id) => k.v6 == v6 && InSet(sets, id, DstAddr(k))
    case CtMark(mask, value) => s.ct * mask == value
  }

  predicate AllMatch(ms: seq<NftMatch>, sets: Sets, k: Packet, s: Marks) {
    forall m :: m in ms ==> Matches(m, sets, k, s)
  }

  function Act(a: NftAction, s: Marks): Marks {
    match a
    case MarkSet(clear, put, _) => s.(mark := (s.mark - clear) + put)
    case CtSave => s.(ct := s.mark)
  }

  datatype Outcome = Outcome(marks: Marks, accepted: bool)

  function RunChain(rules: seq<NftRule>, sets: Sets, k: Packet, s: Marks): Outcome {
    if rules == [] then Outcome(s, false)
    else if AllMatch(rules[0].matches, sets, k, s) then
      var next := Act(rules[0].action, s);
      if rules[0].action.MarkSet? && rules[0].action.accept then Outcome(next, true)
      else RunChain(rules[1..], sets, k, next)
    else RunChain(rules[1..], sets, k, s)
  }

  lemma {:induction false} RunConcat(a: seq<NftRule>, b: seq<NftRule>, sets: Sets, k: Packet, s: Marks)
    ensures RunChain(a + b, sets, k, s) ==
      var o := RunChain(a, sets, k, s); if o.accepted then o else RunChain(b, sets, k, o.marks)
  {
    if a == [] {
      assert a + b == b;
    } else {
      assert (a + b)[1..] == a[1..] + b;
      if AllMatch(a[0].matches, sets, k, s) {
        RunConcat(a[1..], b, sets, k, Act(a[0].action, s));
      } else {
        RunConcat(a[1..], b, sets, k, s);
      }
    }
  }

  // ---- rendering ----

  /** `srcMatchPrefix`. */
  function SourcePrefix(z: Zone): seq<NftMatch> {
    (if z.srcIface != [] then [IifName(z.srcIface)] else []) +
      (if z.srcMAC != [] then [EtherSaddr(z.srcMAC)] else []) +
      (if z.srcPort != [] then [TransportSport(z.srcPort)] else [])
  }

  function DestLine(mask: Word, z: Zone, v6: bool): seq<NftRule> {
    var dest := if v6 then z.v6 else z.v4;
    var src := if v6 then z.srcV6 else z.srcV4;
    var other := if v6 then z.srcV4 else z.srcV6;
    if dest != [] && (src != [] || other == []) then
      [NftRule(SourcePrefix(z) + (if src != [] then [Saddr(v6, SrcSet(z.name, v6))] else []) +
               [Daddr(v6, DestSet(z.name, v6))], MarkSet(mask, z.mark, false))]
    else []
  }

  function SourceOnlyLines(mask: Word, z: Zone): seq<NftRule> {
    if HasDest(z) || !z.srcScoped then []
    else
      var pre := SourcePrefix(z);
      var four := if z.srcV4 != []
          then [NftRule(pre + [Saddr(false, SrcSet(z.name, false))], MarkSet(mask, z.mark, false))] else [];
      var six := if z.srcV6 != []
          then [NftRule(pre + [Saddr(true, SrcSet(z.name, true))], MarkSet(mask, z.mark, false))] else [];
      if four + six == [] && pre != [] then [NftRule(pre, MarkSet(mask, z.mark, false))] else four + six
  }

  function ZoneLines(mask: Word, z: Zone): seq<NftRule> {
    DestLine(mask, z, false) + DestLine(mask, z, true) + SourceOnlyLines(mask, z)
  }

  function AllZoneLines(mask: Word, zs: seq<Zone>): seq<NftRule> {
    if zs == [] then [] else AllZoneLines(mask, zs[..|zs| - 1]) + ZoneLines(mask, zs[|zs| - 1])
  }

  predicate WroteSourceOnly(mask: Word, zs: seq<Zone>) {
    exists z :: z in zs && SourceOnlyLines(mask, z) != []
  }

  function BypassLines(pl: Plan, wan: Word, accept: bool): seq<NftRule> {
    (if pl.bypassV4 != [] then [NftRule([Daddr(false, BypassSet(false))], MarkSet(pl.mask, wan, accept))] else []) +
      (if pl.bypassV6 != [] then [NftRule([Daddr(true, BypassSet(true))], MarkSet(pl.mask, wan, accept))] else [])
  }

  /** `connmarkRestoreLines`: one terminating line per distinct non-zero egress mark. */
  function RestoreLines(mask: Word, es: seq<Egress>): seq<NftRule> {
    if es == [] then []
    else
      var rest := RestoreLines(mask, es[..|es| - 1]);
      var line := RestoreLine(mask, es[|es| - 1].mark);
      if es[|es| - 1].mark == {} || line in rest then rest else rest + [line]
  }

  function RestoreLine(mask: Word, mark: Word): NftRule {
    NftRule([CtMark(mask, mark)], MarkSet(mask, mark, true))
  }

  /** `markByKind(EgressWAN)`: the first WAN egress's mark, zero when there is none. */
  function MarkOfWan(es: seq<Egress>): Word {
    if es == [] then {} else if es[0].kind == WAN then es[0].mark else MarkOfWan(es[1..])
  }

  function Chain(pl: Plan): seq<NftRule> {
    var wan := MarkOfWan(pl.egresses);
    BypassLines(pl, wan, true) + RestoreLines(pl.mask, pl.egresses) + AllZoneLines(pl.mask, pl.zones) +
      (if WroteSourceOnly(pl.mask, pl.zones) then BypassLines(pl, wan, false) else []) +
      [NftRule([], CtSave)]
  }

  /** `connmarkRestoreLines` with its `seen` map. */
  method RenderRestore(mask: Word, es: seq<Egress>) returns (lines: seq<NftRule>)
    ensures lines == RestoreLines(mask, es)
  {
    var seen: set<Word> := {};
    lines := [];
    for i := 0 to |es|
      invariant lines == RestoreLines(mask, es[..i])
      invariant forall w: Word :: w in seen <==> RestoreLine(mask, w) in lines
    {
      assert es[..i + 1][..i] == es[..i];
      if es[i].mark != {} && es[i].mark !in seen {
        seen := seen + {es[i].mark};
        lines := lines + [RestoreLine(mask, es[i].mark)];
      }
    }
    assert es[..|es|] == es;
  }

  /** The zone loop of `RenderNft` with its `sourceOnly` flag. */
  method RenderZones(mask: Word, zs: seq<Zone>) returns (lines: seq<NftRule>, sourceOnly: bool)
    ensures lines == AllZoneLines(mask, zs) && sourceOnly == WroteSourceOnly(mask, zs)
  {
    lines := [];
    sourceOnly := false;
    for i := 0 to |zs|
      invariant lines == AllZoneLines(mask, zs[..i])
      invariant sourceOnly == WroteSourceOnly(mask, zs[..i])
    {
      var z := zs[i];
      assert zs[..i + 1] == zs[..i] + [z];
      var only := SourceOnlyLines(mask, z);
      lines := lines + (DestLine(mask, z, false) + DestLine(mask, z, true) + only);
      if only != [] {
        sourceOnly := true;
      }
    }
    assert zs[..|zs|] == zs;
  }

  /** The `wr_mark` part of `RenderNft`. */
  method RenderChain(pl: Plan) returns (lines: seq<NftRule>)
    ensures lines == Chain(pl)
  {
    var wan := MarkOfWan(pl.egresses);
    lines := BypassLines(pl, wan, true);
    var restore := RenderRestore(pl.mask, pl.egresses);
    var zones, sourceOnly := RenderZones(pl.mask, pl.zones);
    lines := lines + restore + zones;
    if sourceOnly {
      lines := lines + BypassLines(pl, wan, false);
    }
    lines := lines + [NftRule([], CtSave)];
  }

  // ---- loading ----

  /** `nftRawSet` prints MAC entries as they are, so a blank first one leaves a set that starts with a comma. */
  predicate BlankFirst(m: NftMatch) { m.EtherSaddr? && m.macs != [] && m.macs[0] == "" }

  /** What `nft -f` takes. */
  predicate Loads(rules: seq<NftRule>) {
    forall r :: r in rules ==> forall m :: m in r.matches ==> !BlankFirst(m)
  }

  /** A zone whose lines, if it has any, print such a set. */
  predicate BlankZone(mask: Word, z: Zone) { ZoneLines(mask, z) != [] && BlankMac(z) }

  predicate BlankMac(z: Zone) { z.srcMAC != [] && z.srcMAC[0] == "" }

  lemma LoadsConcat(a: seq<NftRule>, b: seq<NftRule>)
    ensures Loads(a + b) <==> Loads(a) && Loads(b)
  {
    forall r | r in a || r in b ensures r in a + b {}
  }

  lemma ZoneLoads(mask: Word, z: Zone)
    ensures Loads(ZoneLines(mask, z)) <==> !BlankZone(mask, z)
  {
    DestLoads(mask, z, false);
    DestLoads(mask, z, true);
    OnlyLoads(mask, z);
    LoadsConcat(DestLine(mask, z, false) + DestLine(mask, z, true), SourceOnlyLines(mask, z));
    LoadsConcat(DestLine(mask, z, false), DestLine(mask, z, true));
  }

  lemma LineLoads(z: Zone, more: seq<NftMatch>, a: NftAction)
    requires forall m :: m in more ==> !m.EtherSaddr?
    ensures Loads([NftRule(SourcePrefix(z) + more, a)]) <==> !BlankMac(z)
  {
    var r := NftRule(SourcePrefix(z) + more, a);
    assert r in [r];
    if BlankMac(z) {
      assert EtherSaddr(z.srcMAC) in SourcePrefix(z);
      assert EtherSaddr(z.srcMAC) in r.matches;
    }
  }

  lemma DestLoads(mask: Word, z: Zone, v6: bool)
    ensures Loads(DestLine(mask, z, v6)) <==> DestLine(mask, z, v6) == [] || !BlankMac(z)
  {
    var src := if v6 then z.srcV6 else z.srcV4;
    var more := (if src != [] then [Saddr(v6, SrcSet(z.name, v6))] else []) + [Daddr(v6, DestSet(z.name, v6))];
    LineLoads(z, more, MarkSet(mask, z.mark, false));
    var r := NftRule(SourcePrefix(z) + more, MarkSet(mask, z.mark, false));
    assert SourcePrefix(z) + more ==
      SourcePrefix(z) + (if src != [] then [Saddr(v6, SrcSet(z.name, v6))] else []) + [Daddr(v6, DestSet(z.name, v6))];
    assert DestLine(mask, z, v6) == [] || DestLine(mask, z, v6) == [r];
  }

  lemma OnlyLoads(mask: Word, z: Zone)
    ensures Loads(SourceOnlyLines(mask, z)) <==> SourceOnlyLines(mask, z) == [] || !BlankMac(z)
  {
    var a, m4, m6 := MarkSet(mask, z.mark, false), [Saddr(false, SrcSet(z.name, false))],
        [Saddr(true, SrcSet(z.name, true))];
    var pre := SourcePrefix(z);
    LineLoads(z, m4, a);
    LineLoads(z, m6, a);
    LineLoads(z, [], a);
    assert pre + [] == pre;
    LoadsConcat([NftRule(pre + m4, a)], [NftRule(pre + m6, a)]);
    var four := if z.srcV4 != [] then [NftRule(pre + m4, a)] else [];
    var six := if z.srcV6 != [] then [NftRule(pre + m6, a)] else [];
    assert four + [] == four && [] + six == six;
  }

  lemma {:induction false} ZonesLoad(mask: Word, zs: seq<Zone>)
    ensures Loads(AllZoneLines(mask, zs)) <==> forall z :: z in zs ==> !BlankZone(mask, z)
  {
    if zs != [] {
      var n := |zs| - 1;
      assert zs == zs[..n] + [zs[n]];
      ZonesLoad(mask, zs[..n]);
      ZoneLoads(mask, zs[n]);
      LoadsConcat(AllZoneLines(mask, zs[..n]), ZoneLines(mask, zs[n]));
    }
  }

  lemma {:induction false} RestoreLoads(mask: Word, es: seq<Egress>)
    ensures Loads(RestoreLines(mask, es))
  {
    if es != [] { RestoreLoads(mask, es[..|es| - 1]); }
  }

  /** The ruleset loads exactly when no zone with lines has a blank first MAC entry. */
  lemma ChainLoadsIff(pl: Plan)
    ensures Loads(Chain(pl)) <==> forall z :: z in pl.zones ==> !BlankZone(pl.mask, z)
  {
    var wan := MarkOfWan(pl.egresses);
    var head, zones := BypassLines(pl, wan, true) + RestoreLines(pl.mask, pl.egresses), AllZoneLines(pl.mask, pl.zones);
    var tail := (if WroteSourceOnly(pl.mask, pl.zones) then BypassLines(pl, wan, false) else []) +
        [NftRule([], CtSave)];
    assert Chain(pl) == head + zones + tail;
    LoadsConcat(head + zones, tail);
    LoadsConcat(head, zones);
    FrameLoads(pl, wan);
    ZonesLoad(pl.mask, pl.zones);
  }

  /** The lines around the zones match no address of a link layer. */
  lemma FrameLoads(pl: Plan, wan: Word)
    ensures Loads(BypassLines(pl, wan, true) + RestoreLines(pl.mask, pl.egresses))
    ensures Loads(
      (if WroteSourceOnly(pl.mask, pl.zones) then BypassLines(pl, wan, false) else []) + [NftRule([], CtSave)])
  {
    LoadsConcat(BypassLines(pl, wan, true), RestoreLines(pl.mask, pl.egresses));
    RestoreLoads(pl.mask, pl.egresses);
  }

  // ---- what the chain computes ----

  /** Each zone's lines put the zone's mark on exactly the packets the zone claims. */
  lemma ZoneLinesMark(pl: Plan, z: Zone, sets: Sets, k: Packet, s: Marks)
    requires GoodZone(z) && z.domains == []
    requires SetsOf(sets, z)
    ensures RunChain(ZoneLines(pl.mask, z), sets, k, s) ==
      Outcome(if ZoneMatches(z, k) then s.(mark := (s.mark - pl.mask) + z.mark) else s, false)
  {
    var d4, d6, so := DestLine(pl.mask, z, false), DestLine(pl.mask, z, true), SourceOnlyLines(pl.mask, z);
    RunConcat(d4 + d6, so, sets, k, s);
    RunConcat(d4, d6, sets, k, s);
    PrefixMatch(z, sets, k, s);
    if HasDest(z) {
      DestLineRun(pl.mask, z, false, sets, k, s);
      DestLineRun(pl.mask, z, true, sets, k, RunChain(d4, sets, k, s).marks);
    } else {
      SourceOnlyRun(pl.mask, z, sets, k, s);
    }
  }

  lemma PrefixMatch(z: Zone, sets: Sets, k: Packet, s: Marks)
    ensures AllMatch(SourcePrefix(z), sets, k, s) <==> IfaceOk(z, k) && MacOk(z, k) && PortOk(z, k)
  {
    var pre := SourcePrefix(z);
    if z.srcIface != [] { assert IifName(z.srcIface) in pre; }
    if z.srcMAC != [] { assert EtherSaddr(z.srcMAC) in pre; }
    if z.srcPort != [] { assert TransportSport(z.srcPort) in pre; }
  }

  lemma AllMatchConcat(a: seq<NftMatch>, b: seq<NftMatch>, sets: Sets, k: Packet, s: Marks)
    ensures AllMatch(a + b, sets, k, s) <==> AllMatch(a, sets, k, s) && AllMatch(b, sets, k, s)
  {
    forall m | m in a ensures m in a + b {}
    forall m | m in b ensures m in a + b {}
  }

  lemma RunOne(r: NftRule, sets: Sets, k: Packet, s: Marks)
    ensures RunChain([r], sets, k, s) ==
      if AllMatch(r.matches, sets, k, s) then Outcome(Act(r.action, s), r.action.MarkSet? && r.action.accept)
          else Outcome(s, false)
  {
    assert [r][1..] == [];
  }

  lemma DestLineRun(mask: Word, z: Zone, v6: bool, sets: Sets, k: Packet, s: Marks)
    requires HasDest(z)
    requires SetsOf(sets, z)
    ensures RunChain(DestLine(mask, z, v6), sets, k, s) ==
      Outcome(if k.v6 == v6 && ZoneMatches(z, k) then s.(mark := (s.mark - mask) + z.mark) else s, false)
  {
    var line := DestLine(mask, z, v6);
    var src := if v6 then z.srcV6 else z.srcV4;
    if line != [] {
      var saddr := if src != [] then [Saddr(v6, SrcSet(z.name, v6))] else [];
      var daddr := [Daddr(v6, DestSet(z.name, v6))];
      RunOne(line[0], sets, k, s);
      assert line == [line[0]];
      AllMatchConcat(SourcePrefix(z) + saddr, daddr, sets, k, s);
      AllMatchConcat(SourcePrefix(z), saddr, sets, k, s);
      PrefixMatch(z, sets, k, s);
      assert Daddr(v6, DestSet(z.name, v6)) in daddr;
      if src != [] { assert Saddr(v6, SrcSet(z.name, v6)) in saddr; }
    }
  }

  lemma SaddrLineRun(mask: Word, z: Zone, v6: bool, sets: Sets, k: Packet, s: Marks)
    requires SetsOf(sets, z)
    ensures RunChain([NftRule(SourcePrefix(z) + [Saddr(v6, SrcSet(z.name, v6))], MarkSet(mask, z.mark, false))],
                     sets, k, s) ==
      Outcome(if k.v6 == v6 && Covered(if v6 then z.srcV6 else z.srcV4, SrcAddr(k)) && IfaceOk(z, k) && MacOk(z, k)
          && PortOk(z, k)
              then s.(mark := (s.mark - mask) + z.mark) else s, false)
  {
    var ms := [Saddr(v6, SrcSet(z.name, v6))];
    RunOne(NftRule(SourcePrefix(z) + ms, MarkSet(mask, z.mark, false)), sets, k, s);
    AllMatchConcat(SourcePrefix(z), ms, sets, k, s);
    PrefixMatch(z, sets, k, s);
    assert ms[0] in ms;
  }

  lemma SourceOnlyRun(mask: Word, z: Zone, sets: Sets, k: Packet, s: Marks)
    requires GoodZone(z) && z.domains == [] && !HasDest(z)
    requires SetsOf(sets, z)
    ensures RunChain(SourceOnlyLines(mask, z), sets, k, s) ==
      Outcome(if ZoneMatches(z, k) then s.(mark := (s.mark - mask) + z.mark) else s, false)
  {
    var pre := SourcePrefix(z);
    var four := if z.srcV4 != []
        then [NftRule(pre + [Saddr(false, SrcSet(z.name, false))], MarkSet(mask, z.mark, false))] else [];
    var six := if z.srcV6 != []
        then [NftRule(pre + [Saddr(true, SrcSet(z.name, true))], MarkSet(mask, z.mark, false))] else [];
    SaddrLineRun(mask, z, false, sets, k, s);
    if four + six == [] {
      assert pre != [];
      RunOne(NftRule(pre, MarkSet(mask, z.mark, false)), sets, k, s);
      PrefixMatch(z, sets, k, s);
    } else {
      RunConcat(four, six, sets, k, s);
      SaddrLineRun(mask, z, true, sets, k, RunChain(four, sets, k, s).marks);
    }
  }

  /** The zone part of the chain leaves the last claiming zone's mark, and never accepts. */
  lemma {:induction false} ZonesMark(pl: Plan, n: nat, k: Packet, s: Marks)
    requires n <= |pl.zones| && GoodPlan(pl) && NoDomains(pl)
    ensures RunChain(AllZoneLines(pl.mask, pl.zones[..n]), DeclaredSets(pl), k, s) ==
      Outcome(Stamped(pl.mask, LastClaim(pl.zones[..n], k), s), false)
  {
    if n > 0 {
      var sets := DeclaredSets(pl);
      var z, before := pl.zones[n - 1], pl.zones[..n - 1];
      assert pl.zones[..n][..n - 1] == before;
      ZonesMark(pl, n - 1, k, s);
      var a, b := AllZoneLines(pl.mask, before), ZoneLines(pl.mask, z);
      assert AllZoneLines(pl.mask, pl.zones[..n]) == a + b;
      RunConcat(a, b, sets, k, s);
      PlanSets(pl, z);
      var d := LastClaim(before, k);
      ZoneLinesMark(pl, z, sets, k, Stamped(pl.mask, d, s));
      ClaimFits(pl, n - 1, k);
      StampTwice(pl.mask, d, z, s);
    }
  }

  lemma ClaimFits(pl: Plan, n: nat, k: Packet)
    requires GoodPlan(pl) && n <= |pl.zones|
    ensures var d := LastClaim(pl.zones[..n], k); d.Claimed? ==> d.zone in pl.zones && d.zone.mark <= pl.mask
  {
    LastClaimIsLast(pl.zones[..n], k);
  }

  /** The restore lines re-adopt exactly a saved egress mark. */
  lemma {:induction false} RestoreRun(mask: Word, es: seq<Egress>, sets: Sets, k: Packet, s: Marks)
    requires forall e :: e in es ==> e.mark != {}
    ensures RunChain(RestoreLines(mask, es), sets, k, s) ==
      if exists e :: e in es && e.mark == s.ct * mask
      then Outcome(s.(mark := (s.mark - mask) + s.ct * mask), true) else Outcome(s, false)
  {
    if es != [] {
      var n := |es| - 1;
      var rest := es[..n];
      assert es == rest + [es[n]];
      RestoreRun(mask, rest, sets, k, s);
      var line := RestoreLine(mask, es[n].mark);
      RunConcat(RestoreLines(mask, rest), [line], sets, k, s);
      RunOne(line, sets, k, s);
      assert AllMatch(line.matches, sets, k, s) <==> s.ct * mask == es[n].mark by {
        assert line.matches[0] in line.matches;
      }
      assert es[n] in es;
      if line in RestoreLines(mask, rest) { RestoreLineSource(mask, rest, es[n].mark); }
    }
  }

  lemma {:induction false} RestoreLineSource(mask: Word, es: seq<Egress>, w: Word)
    requires RestoreLine(mask, w) in RestoreLines(mask, es)
    ensures exists e :: e in es && e.mark == w
  {
    var n := |es| - 1;
    assert es == es[..n] + [es[n]];
    if RestoreLine(mask, w) in RestoreLines(mask, es[..n]) {
      RestoreLineSource(mask, es[..n], w);
    } else {
      assert RestoreLine(mask, w) == RestoreLine(mask, es[n].mark);
      assert es[n] in es && es[n].mark == w;
    }
  }

  lemma BypassRun(pl: Plan, wan: Word, accept: bool, sets: Sets, k: Packet, s: Marks)
    ensures RunChain(BypassLines(pl, wan, accept), sets, k, s) ==
      if (if k.v6 then pl.bypassV6 else pl.bypassV4) != [] && InSet(sets, BypassSet(k.v6), DstAddr(k))
      then Outcome(s.(mark := (s.mark - pl.mask) + wan), accept) else Outcome(s, false)
  {
    var four := NftRule([Daddr(false, BypassSet(false))], MarkSet(pl.mask, wan, accept));
    var six := NftRule([Daddr(true, BypassSet(true))], MarkSet(pl.mask, wan, accept));
    RunOne(four, sets, k, s);
    RunOne(six, sets, k, s);
    assert four.matches[0] in four.matches && six.matches[0] in six.matches;
    RunConcat([four], [six], sets, k, s);
    assert [four] + [] == [four] && [] + [six] == [six];
  }

  /** What one packet of any flow gets, for any contents of the sets. */
  lemma ChainRun(pl: Plan, sets: Sets, k: Packet, s: Marks)
    requires GoodPlan(pl)
    ensures var bypass := (if k.v6 then pl.bypassV6 else pl.bypassV4) != [] && InSet(sets, BypassSet(k.v6), DstAddr(k));
      var restored := exists e :: e in pl.egresses && e.mark == s.ct * pl.mask;
      var zoned := RunChain(AllZoneLines(pl.mask, pl.zones), sets, k, s);
      var o := RunChain(Chain(pl), sets, k, s);
      if bypass then o.marks == s.(mark := (s.mark - pl.mask) + WanMark(pl))
      else if restored then o.marks == s.(mark := (s.mark - pl.mask) + s.ct * pl.mask)
      else o.marks == Marks(zoned.marks.mark, zoned.marks.mark)
  {
    var wan := MarkOfWan(pl.egresses);
    var bypass, restore, zones := BypassLines(pl, wan, true), RestoreLines(pl.mask, pl.egresses),
        AllZoneLines(pl.mask, pl.zones);
    var again := if WroteSourceOnly(pl.mask, pl.zones) then BypassLines(pl, wan, false) else [];
    var save := [NftRule([], CtSave)];
    RunConcat(bypass + restore + zones + again, save, sets, k, s);
    RunConcat(bypass + restore + zones, again, sets, k, s);
    RunConcat(bypass + restore, zones, sets, k, s);
    RunConcat(bypass, restore, sets, k, s);
    BypassRun(pl, wan, true, sets, k, s);
    RestoreRun(pl.mask, pl.egresses, sets, k, s);
    var z := RunChain(zones, sets, k, s);
    BypassRun(pl, wan, false, sets, k, z.marks);
    RunOne(save[0], sets, k, z.marks);
    ZonesKeepCt(pl.mask, pl.zones, sets, k, s);
    assert AllMatch([], sets, k, z.marks);
  }

  lemma {:induction false} ZonesKeepCt(mask: Word, zs: seq<Zone>, sets: Sets, k: Packet, s: Marks)
    ensures !RunChain(AllZoneLines(mask, zs), sets, k, s).accepted
    ensures RunChain(AllZoneLines(mask, zs), sets, k, s).marks.ct == s.ct
  {
    if zs != [] {
      var n := |zs| - 1;
      ZonesKeepCt(mask, zs[..n], sets, k, s);
      var a, b := AllZoneLines(mask, zs[..n]), ZoneLines(mask, zs[n]);
      RunConcat(a, b, sets, k, s);
      ZoneLinesPlain(mask, zs[n]);
      PlainRun(b, sets, k, RunChain(a, sets, k, s).marks);
    }
  }

  lemma ZoneLinesPlain(mask: Word, z: Zone)
    ensures forall r :: r in ZoneLines(mask, z) ==> r.action == MarkSet(mask, z.mark, false)
  {
    var a, b, c := DestLine(mask, z, false), DestLine(mask, z, true), SourceOnlyLines(mask, z);
    forall r | r in ZoneLines(mask, z) ensures r in a || r in b || r in c {}
  }

  /** Lines that only set marks leave the connection mark alone. */
  lemma {:induction false} PlainRun(rules: seq<NftRule>, sets: Sets, k: Packet, s: Marks)
    requires forall r :: r in rules ==> r.action.MarkSet? && !r.action.accept
    ensures !RunChain(rules, sets, k, s).accepted && RunChain(rules, sets, k, s).marks.ct == s.ct
  {
    if rules != [] {
      assert rules[0] in rules;
      PlainRun(rules[1..], sets, k, s);
      PlainRun(rules[1..], sets, k, Act(rules[0].action, s));
    }
  }

  /**
   Refinement on a fresh flow: the chain's owned mark bits are those of the decision, the
   bits the plan does not own are untouched, and the choice is saved for the connection.
   */
  lemma FreshChain(pl: Plan, k: Packet, ct: Word)
    requires GoodPlan(pl) && NoDomains(pl) && Fresh(pl, k.mark) && Fresh(pl, ct)
    ensures var m := RunChain(Chain(pl), DeclaredSets(pl), k, Marks(k.mark, ct)).marks;
      && m.mark * pl.mask == (match Decide(pl, k)
           case Main => if Bypassed(pl, k) then WanMark(pl) else {}
           case Claimed(z) => z.mark)
      && m.mark - pl.mask == k.mark - pl.mask
      && m.ct == (if Bypassed(pl, k) then ct else m.mark)
  {
    var s := Marks(k.mark, ct);
    ChainRun(pl, DeclaredSets(pl), k, s);
    ZonesMark(pl, |pl.zones|, k, s);
    ClaimFits(pl, |pl.zones|, k);
    assert pl.zones[..|pl.zones|] == pl.zones;
    assert pl.egresses[0] in pl.egresses;
    assert s.ct * pl.mask == {};
    CoveredNonEmpty(if k.v6 then pl.bypassV6 else pl.bypassV4, DstAddr(k));
    OwnedBits(pl.mask, k.mark, WanMark(pl));
    if Decide(pl, k).Claimed? { OwnedBits(pl.mask, k.mark, Decide(pl, k).zone.mark); }
  }

  /** Setting owned bits sets exactly those and keeps every other bit. */
  lemma OwnedBits(mask: Word, prior: Word, put: Word)
    requires put <= mask
    ensures ((prior - mask) + put) * mask == put && ((prior - mask) + put) - mask == prior - mask
  {}

  // ---- set names ----

  /** The identifiers `RenderNft` declares and references. */
  function SetName(id: SetId): string {
    match id
    case BypassSet(v6) => if v6 then "bypass6" else "bypass4"
    case DestSet(zone, v6) => zone + (if v6 then "_6" else "_4")
    case SrcSet(zone, v6) => zone + (if v6 then "_s6" else "_s4")
  }

  lemma FirstLetter(id: SetId)
    requires !id.BypassSet? ==> "rule_" <= id.zone || "list_" <= id.zone
    ensures SetName(id) != [] && (SetName(id)[0] == 'b' <==> id.BypassSet?)
  {}

  /** The textual names keep sets apart, so no ruleset declares one name for two sets. */
  lemma SetNamesDistinct(a: SetId, b: SetId)
    requires SetName(a) == SetName(b)
    requires forall id :: id in {a, b} && !id.BypassSet? ==> "rule_" <= id.zone || "list_" <= id.zone
    ensures a == b
  {
    var s, t := SetName(a), SetName(b);
    assert a in {a, b} && b in {a, b};
    FirstLetter(a);
    FirstLetter(b);
    if !a.BypassSet? && !b.BypassSet? {
      assert s[|s| - 1] == t[|t| - 1] && s[|s| - 2] == t[|t| - 2];
      assert a.v6 == b.v6;
      if a.DestSet? {
        assert a.zone == s[..|s| - 2] && b.zone == t[..|t| - 2];
      } else {
        assert a.zone == s[..|s| - 3] && b.zone == t[..|t| - 3];
      }
    }
  }
}
