/**
 Connection marks over whole flows. The packets of one connection arrive one after another
 while the address sets change arbitrarily (dnsmasq adds entries, timeouts expire them); the
 chains save the chosen egress and restore it on later packets.
 */
module FlowAffinity {
  import opened Cidr
  import opened Compile
  import opened Datapath
  import Nftables
  import Iptables

  /** One packet of the flow and the set contents at that moment. */
  datatype Arrival = Arrival(packet: Packet, sets: Sets)

  predicate InBypass(pl: Plan, x: Arrival) {
    (if x.packet.v6 then pl.bypassV6 else pl.bypassV4) != [] && InSet(x.sets, BypassSet(x.packet.v6), DstAddr(x.packet))
  }

  // ---- runs of a flow ----

  /** What one packet does to the connection: its outgoing mark and the saved mark. */
  type Step = (Word, Arrival) -> Marks

  /** The connection mark after the first `n` packets. */
  function CtAfter(step: Step, ct: Word, flow: seq<Arrival>, n: nat): Word
    requires n <= |flow|
  {
    if n == 0 then ct else step(CtAfter(step, ct, flow, n - 1), flow[n - 1]).ct
  }

  /** The mark packet `i` leaves with. */
  function MarkOf(step: Step, ct: Word, flow: seq<Arrival>, i: nat): Word
    requires i < |flow|
  {
    step(CtAfter(step, ct, flow, i), flow[i]).mark
  }

  lemma {:induction false} RunKeepsMark(step: Step, mask: Word, skip: Arrival -> bool, known: Word -> bool,
                                        ct: Word, flow: seq<Arrival>, i: nat, n: nat)
    requires forall c, x :: skip(x) ==> step(c, x).ct == c
    requires forall c, x :: !skip(x) && known(c * mask) ==> step(c, x).ct == c
    requires forall c, x :: !skip(x) && known(step(c, x).mark * mask) ==> step(c, x).ct * mask == step(c, x).mark * mask
    requires i < n <= |flow| && !skip(flow[i]) && known(MarkOf(step, ct, flow, i) * mask)
    ensures CtAfter(step, ct, flow, n) * mask == MarkOf(step, ct, flow, i) * mask
  {
    if n > i + 1 { RunKeepsMark(step, mask, skip, known, ct, flow, i, n - 1); }
  }

  lemma {:induction false} RunStaysMarked(step: Step, mask: Word, skip: Arrival -> bool, okay: Arrival -> bool,
                                          ct: Word, flow: seq<Arrival>, i: nat, n: nat)
    requires forall c, x :: okay(x) && skip(x) ==> step(c, x).ct == c
    requires forall c, x :: okay(x) && !skip(x) && c * mask != {} ==> step(c, x).mark * mask != {}
    requires forall c, x :: okay(x) && !skip(x) && step(c, x).mark * mask != {} ==> step(c, x).ct * mask != {}
    requires i < n <= |flow| && forall j :: i <= j < n ==> okay(flow[j])
    requires !skip(flow[i]) && MarkOf(step, ct, flow, i) * mask != {}
    ensures CtAfter(step, ct, flow, n) * mask != {}
  {
    if n > i + 1 { RunStaysMarked(step, mask, skip, okay, ct, flow, i, n - 1); }
  }

  // ---- nft ----

  function NftStep(pl: Plan): Step {
    (ct: Word, x: Arrival) => Nftables.RunChain(Nftables.Chain(pl), x.sets, x.packet, Marks(x.packet.mark, ct)).marks
  }

  ghost predicate EgressMark(pl: Plan, w: Word) { exists e :: e in pl.egresses && e.mark == w }

  lemma NftStepPins(pl: Plan, ct: Word, x: Arrival)
    requires GoodPlan(pl)
    ensures var m := NftStep(pl)(ct, x);
      && (InBypass(pl, x) ==> m.ct == ct)
      && (!InBypass(pl, x) && EgressMark(pl, ct * pl.mask) ==> m.mark * pl.mask == ct * pl.mask && m.ct == ct)
      && (!InBypass(pl, x) && EgressMark(pl, m.mark * pl.mask) ==> m.ct * pl.mask == m.mark * pl.mask)
  {
    Nftables.ChainRun(pl, x.sets, x.packet, Marks(x.packet.mark, ct));
    Nftables.OwnedBits(pl.mask, x.packet.mark, ct * pl.mask);
  }

  /**
   Egress affinity on the nft plane: once a packet outside the bypass set carries an egress
   mark, every later packet of the flow outside the bypass set carries the same one,
   whatever the sets became.
   */
  lemma NftKeepsEgress(pl: Plan, ct: Word, flow: seq<Arrival>, i: nat, j: nat)
    requires GoodPlan(pl) && i < j < |flow| && !InBypass(pl, flow[i]) && !InBypass(pl, flow[j])
    requires EgressMark(pl, MarkOf(NftStep(pl), ct, flow, i) * pl.mask)
    ensures MarkOf(NftStep(pl), ct, flow, j) * pl.mask == MarkOf(NftStep(pl), ct, flow, i) * pl.mask
  {
    var step := NftStep(pl);
    forall c, x
      ensures InBypass(pl, x) ==> step(c, x).ct == c
      ensures !InBypass(pl, x) && EgressMark(pl, c * pl.mask) ==> step(c, x).ct == c
      ensures !InBypass(pl, x) && EgressMark(pl, step(c, x).mark * pl.mask)
          ==> step(c, x).ct * pl.mask == step(c, x).mark * pl.mask
    {
      NftStepPins(pl, c, x);
    }
    RunKeepsMark(step, pl.mask, x => InBypass(pl, x), w => EgressMark(pl, w), ct, flow, i, j);
    NftStepPins(pl, CtAfter(step, ct, flow, j), flow[j]);
  }

  // ---- iptables ----

  function IptStep(pl: Plan, s86: Word): Step {
    (ct: Word, x: Arrival) => Iptables.Plane(pl, s86, x.sets, x.packet, Marks(x.packet.mark, ct))
  }

  /** A packet of a flow the plan handles: no owned bits of its own, not carrying the guarded mark. */
  predicate Unguarded(pl: Plan, s86: Word, x: Arrival) {
    Fresh(pl, x.packet.mark) && (s86 == {} || x.packet.mark != s86)
  }

  /** Zone rules only replace the owned bits by a zone's mark. */
  predicate Stamps(pl: Plan, r: Iptables.IptRule) {
    r.target.SetXmark? && r.target.mask == pl.mask && r.target.put != {} && r.target.put <= pl.mask
  }

  lemma {:induction false} StampRun(pl: Plan, rs: seq<Iptables.IptRule>, sets: Sets, k: Packet, s: Marks)
    requires forall r :: r in rs ==> Stamps(pl, r)
    ensures var o := Iptables.RunChain(rs, sets, k, s);
      !o.returned && o.marks.ct == s.ct && (s.mark * pl.mask != {} ==> o.marks.mark * pl.mask != {})
  {
    if rs != [] {
      assert rs[0] in rs;
      StampRun(pl, rs[1..], sets, k, s);
      Iptables.XorOwned(pl.mask, rs[0].target.put, s.mark);
      assert ((s.mark - pl.mask) + rs[0].target.put) * pl.mask == rs[0].target.put;
      StampRun(pl, rs[1..], sets, k, Iptables.Act(rs[0].target, s));
    }
  }

  lemma {:induction false} WithTailStamps(pl: Plan, cs: seq<seq<Iptables.IptMatch>>, tail: seq<Iptables.IptMatch>,
        put: Word)
    requires put != {} && put <= pl.mask
    ensures forall r :: r in Iptables.WithTail(cs, tail, Iptables.SetXmark(put, pl.mask)) ==> Stamps(pl, r)
  {
    if cs != [] { WithTailStamps(pl, cs[..|cs| - 1], tail, put); }
  }

  lemma {:induction false} ZonesStamp(pl: Plan, n: nat, v6: bool)
    requires GoodPlan(pl) && n <= |pl.zones|
    ensures forall r :: r in Iptables.AllZoneRules(pl.mask, pl.zones[..n], v6) ==> Stamps(pl, r)
  {
    if n > 0 {
      var z := pl.zones[n - 1];
      assert pl.zones[..n][..n - 1] == pl.zones[..n - 1];
      assert z in pl.zones;
      ZonesStamp(pl, n - 1, v6);
      WithTailStamps(pl, Iptables.Combos(z), Iptables.ZoneTail(z, v6), z.mark);
    }
  }

  lemma IptStepPins(pl: Plan, s86: Word, ct: Word, x: Arrival)
    requires GoodPlan(pl) && Unguarded(pl, s86, x)
    ensures var m := IptStep(pl, s86)(ct, x);
      && (InBypass(pl, x) ==> m.ct == ct)
      && (!InBypass(pl, x) && (x.packet.v6 ==> HasV6(pl)) && ct * pl.mask != {} ==> m.mark * pl.mask != {})
      && (!InBypass(pl, x) && m.mark * pl.mask != {}
          ==> (x.packet.v6 ==> HasV6(pl)) && m.ct * pl.mask == m.mark * pl.mask)
  {
    var k := x.packet;
    if k.v6 ==> HasV6(pl) {
      var s := Marks(k.mark, ct);
      Iptables.ChainRun(pl, s86, k.v6, x.sets, k, s);
      Iptables.XorOwned(pl.mask, ct * pl.mask, k.mark);
      Nftables.OwnedBits(pl.mask, k.mark, ct * pl.mask);
      ZonesStamp(pl, |pl.zones|, k.v6);
      assert pl.zones[..|pl.zones|] == pl.zones;
      var restored := s.(mark := Iptables.Xor(s.mark - pl.mask, s.ct * pl.mask));
      StampRun(pl, Iptables.AllZoneRules(pl.mask, pl.zones, k.v6), x.sets, k, restored);
      SavedOwned(pl.mask, Iptables.RunChain(Iptables.AllZoneRules(pl.mask, pl.zones, k.v6), x.sets, k, restored).marks);
    }
  }

  lemma SavedOwned(mask: Word, s: Marks)
    ensures var m := Iptables.Act(Iptables.SaveMark(mask, mask), s); m.mark == s.mark && m.ct * mask == s.mark * mask
  {}

  /**
   No mid-flow leak on the iptables plane: once a packet outside the bypass set is marked,
   no later packet of the flow outside the bypass set is unmarked, whatever the sets became.
   */
  lemma IptStaysMarked(pl: Plan, s86: Word, ct: Word, flow: seq<Arrival>, i: nat, j: nat)
    requires GoodPlan(pl) && forall n :: 0 <= n < |flow| ==> Unguarded(pl, s86, flow[n])
    requires forall m, n :: 0 <= m < n < |flow| ==> flow[m].packet.v6 == flow[n].packet.v6
    requires i < j < |flow| && !InBypass(pl, flow[i]) && !InBypass(pl, flow[j])
    requires MarkOf(IptStep(pl, s86), ct, flow, i) * pl.mask != {}
    ensures MarkOf(IptStep(pl, s86), ct, flow, j) * pl.mask != {}
  {
    var step := IptStep(pl, s86);
    IptStepPins(pl, s86, CtAfter(step, ct, flow, i), flow[i]);
    var okay := (x: Arrival) => Unguarded(pl, s86, x) && (x.packet.v6 ==> HasV6(pl));
    forall c, x | okay(x)
      ensures InBypass(pl, x) ==> step(c, x).ct == c
      ensures !InBypass(pl, x) && c * pl.mask != {} ==> step(c, x).mark * pl.mask != {}
      ensures !InBypass(pl, x) && step(c, x).mark * pl.mask != {} ==> step(c, x).ct * pl.mask != {}
    {
      IptStepPins(pl, s86, c, x);
    }
    RunStaysMarked(step, pl.mask, x => InBypass(pl, x), okay, ct, flow, i, j);
    IptStepPins(pl, s86, CtAfter(step, ct, flow, j), flow[j]);
  }

  /**
   The mark any packet of the flow leaves the iptables plane with, whatever the connection
   carries: none when bypassed or in a family the plan does not mark, else the mark of the
   zone that claims it, else the restored one.
   */
  lemma IptRestoredMark(pl: Plan, s86: Word, ct: Word, k: Packet)
    requires GoodPlan(pl) && NoDomains(pl) && Iptables.CleanSources(pl)
    requires Fresh(pl, k.mark) && (s86 == {} || k.mark != s86)
    ensures Iptables.Plane(pl, s86, DeclaredSets(pl), k, Marks(k.mark, ct)).mark * pl.mask ==
      if Bypassed(pl, k) || (k.v6 && !HasV6(pl)) then {}
      else match Decide(pl, k) case Main => ct * pl.mask case Claimed(z) => z.mark
  {
    var s := Marks(k.mark, ct);
    if !(k.v6 && !HasV6(pl)) {
      LastClaimIsLast(pl.zones, k);
      CoveredNonEmpty(if k.v6 then pl.bypassV6 else pl.bypassV4, DstAddr(k));
      var restored := s.(mark := Iptables.Xor(s.mark - pl.mask, s.ct * pl.mask));
      Iptables.ChainRun(pl, s86, k.v6, DeclaredSets(pl), k, s);
      AllZonesStamp(pl, k, restored);
      RestoredBits(pl.mask, s.mark, s.ct);
      if Decide(pl, k).Claimed? { Nftables.OwnedBits(pl.mask, restored.mark, Decide(pl, k).zone.mark); }
    }
  }

  lemma RestoredBits(mask: Word, mark: Word, ct: Word)
    ensures Iptables.Xor(mark - mask, ct * mask) * mask == ct * mask
  {}

  /**
   The planes differ in strength here: on a packet of a connection that carries an egress's
   mark, outside the bypass and in a family the plan marks, they agree if and only if no zone
   of another egress claims the packet. If one does, the iptables chain moves the flow to it
   and the nft chain keeps the first egress.
   */
  lemma PlanesKeepAlikeIff(pl: Plan, s86: Word, ct: Word, k: Packet)
    requires GoodPlan(pl) && NoDomains(pl) && Iptables.CleanSources(pl)
    requires Fresh(pl, k.mark) && (s86 == {} || k.mark != s86)
    requires EgressMark(pl, ct * pl.mask) && !Bypassed(pl, k) && (k.v6 ==> HasV6(pl))
    ensures var nft := NftStep(pl)(ct, Arrival(k, DeclaredSets(pl))).mark * pl.mask;
      var ipt := Iptables.Plane(pl, s86, DeclaredSets(pl), k, Marks(k.mark, ct)).mark * pl.mask;
      && nft == ct * pl.mask
      && (ipt == nft <==> Decide(pl, k) == Main || Decide(pl, k).zone.mark == ct * pl.mask)
      && (Decide(pl, k).Claimed? ==> ipt == Decide(pl, k).zone.mark)
  {
    IptRestoredMark(pl, s86, ct, k);
    NftStepPins(pl, ct, Arrival(k, DeclaredSets(pl)));
  }

  // ---- a flow the planes route apart ----

  const HOME := Egress("direct", WAN, "", {16}, 254, false)
  const FIRST := Egress("a", Tunnel, "wg0", {17}, 151, false)
  const SECOND := Egress("b", Tunnel, "wg1", {18}, 152, false)
  const SPLIT := Plan(
    "velinx_pbr", {16, 17, 18, 19, 20, 21, 22, 23}, [HOME, FIRST, SECOND],
    [Zone("rule_b", "b", {18}, [Prefix(false, 8, 32)], [], [], [], [], [], [], [], false)], [], [])

  lemma SplitIsGood()
    ensures GoodPlan(SPLIT) && NoDomains(SPLIT) && Iptables.CleanSources(SPLIT) && EgressMark(SPLIT, {17})
  {
    assert FIRST in SPLIT.egresses && SECOND in SPLIT.egresses;
    assert SECOND.tag == SPLIT.zones[0].tag && SECOND.mark == SPLIT.zones[0].mark;
  }

  /** A connection begun through `a`, whose next packet goes to an address now in the zone of `b`. */
  lemma FlowSplits()
    ensures var k := Packet(false, 0, 8, "br0", "", TCP, 0, 443, {});
      && NftStep(SPLIT)({17}, Arrival(k, DeclaredSets(SPLIT))).mark * SPLIT.mask == {17}
      && Iptables.Plane(SPLIT, {}, DeclaredSets(SPLIT), k, Marks(k.mark, {17})).mark * SPLIT.mask == {18}
  {
    var k := Packet(false, 0, 8, "br0", "", TCP, 0, 443, {});
    SplitIsGood();
    assert {17} * SPLIT.mask == {17};
    SplitClaims(k);
    PlanesKeepAlikeIff(SPLIT, {}, {17}, k);
  }

  lemma SplitClaims(k: Packet)
    requires !k.v6 && k.dst == 8
    ensures !Bypassed(SPLIT, k) && Decide(SPLIT, k) == Claimed(SPLIT.zones[0])
  {
    var host := Prefix(false, 8, 32);
    assert Pow2(0) == 1;
    HostClaims(SPLIT.zones[0], host, k);
    OneZone(SPLIT.zones[0], k);
  }

  lemma HostClaims(z: Zone, host: Prefix, k: Packet)
    requires z.v4 == [host] && z.srcV4 == [] && z.srcV6 == [] && z.srcIface == [] && z.srcMAC == [] && z.srcPort == []
    requires !k.v6 && Contains(host, DstAddr(k))
    ensures ZoneMatches(z, k)
  {
    assert host in z.v4;
  }

  lemma OneZone(z: Zone, k: Packet)
    requires ZoneMatches(z, k)
    ensures LastClaim([z], k) == Claimed(z)
  {}

  lemma AllZonesStamp(pl: Plan, k: Packet, s: Marks)
    requires GoodPlan(pl) && NoDomains(pl) && Iptables.CleanSources(pl)
    ensures Iptables.RunChain(Iptables.AllZoneRules(pl.mask, pl.zones, k.v6), DeclaredSets(pl), k, s) ==
      Iptables.Outcome(Stamped(pl.mask, LastClaim(pl.zones, k), s), false)
  {
    Iptables.CleanIsLoose(pl);
    Iptables.ZonesMark(pl, |pl.zones|, k, s);
    assert pl.zones[..|pl.zones|] == pl.zones;
  }
}
