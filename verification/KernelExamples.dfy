/**
 Concrete plans, kernels and packets on which the kernel plane does less than it says: the
 kill switch under IPv6, an inherited connection mark, and an `Apply` with a tunnel down.
 */
module KernelExamples {
  import opened Sorting
  import opened Cidr
  import opened Profiles
  import opened Compile
  import opened Datapath
  import opened PolicyRouting
  import opened ApplyTeardown
  import opened PlaneEquivalence
  import opened KillSwitch
  import opened FailedApply
  import Nftables

  const OPTIONS := WithDefaults(Options("", 0, 0, 0, 0, 0, false))
  const MASK: Word := {16, 17, 18, 19, 20, 21, 22, 23}
  const UPLINK := Egress("direct", WAN, "", {16}, 254, false)
  const GUARDED := Egress("vpn", Tunnel, "wg0", {17}, 151, true)

  /** One kill-switched tunnel, and one zone for it. */
  function VpnPlan(v4: seq<Prefix>, v6: seq<Prefix>): Plan {
    Plan("velinx_pbr", MASK, [UPLINK, GUARDED],
         [Zone("vpn", "vpn", {17}, v4, v6, [], [], [], [], [], [], false)], [], [])
  }

  const LOW4 := Prefix(false, 0, 1)
  const LOW6 := Prefix(true, 0, 1)

  /** A freshly booted Linux router with the given links up. */
  function Linux(links: set<string>): Kernel {
    Kernel(STOCK_RULES, STOCK_RULES, map[], map[], 0, LINUX_METRIC6, links)
  }

  /** A packet to 2000:: or 8.0.0.0, with no mark. */
  function PublicPacket(v6: bool): Packet {
    Packet(v6, 0, if v6 then Pow2(125) else 0x8000000, "br0", "", TCP, 0, 0, {})
  }

  lemma PublicAddress(v6: bool)
    ensures var a := DstAddr(PublicPacket(v6));
      a.n < Pow2(Width(v6)) && !Covered(PrivateRanges(v6), a) && Contains(Prefix(v6, 0, 1), a)
  {
    var a := DstAddr(PublicPacket(v6));
    if v6 { PublicSix(a); } else { PublicFour(a); }
    if v6 {
      assert Pow2(127) == 2 * Pow2(126) == 4 * Pow2(125);
    } else {
      Sizes();
      assert Pow2(7) == 128;
      Pow2Adds(24, 7);
    }
    LowHalf(Prefix(v6, 0, 1), a);
  }

  lemma LowHalf(p: Prefix, a: Addr)
    requires p.v6 == a.v6 && p.addr == 0 && a.n < Size(p)
    ensures Contains(p, a)
  {
    DivideSmall(a.n, Size(p));
    DivideSmall(0, Size(p));
  }

  lemma DivideSmall(n: nat, d: nat)
    requires n < d
    ensures n / d == 0
  {}

  lemma PublicFour(a: Addr)
    requires a == Addr(false, 0x8000000)
    ensures a.n < Pow2(32) && !Covered(PRIVATE_V4, a)
  {
    Sizes();
    Pow2Adds(16, 16);
    Pow2Adds(20, 0);
  }

  lemma PublicSix(a: Addr)
    requires a == Addr(true, Pow2(125))
    ensures a.n < Pow2(128) && !Covered(PRIVATE_V6, a)
  {
    SmallPowers();
    Pow2Adds(125, 3);
    Pow2Adds(121, 4);
    Pow2Adds(118, 7);
    DivideUnique(a.n, Pow2(121), 16, 0);
    DivideUnique(a.n, Pow2(118), 128, 0);
    Masks6();
  }

  lemma SmallPowers()
    ensures Pow2(3) == 8 && Pow2(4) == 16 && Pow2(7) == 128
  {}

  lemma VpnShape(v4: seq<Prefix>, v6: seq<Prefix>)
    requires v4 != [] || v6 != []
    ensures var pl := VpnPlan(v4, v6);
      GoodPlan(pl) && NoDomains(pl) && NonWan(pl) == [GUARDED] && (HasV6(pl) <==> v6 != [])
  {
    var pl := VpnPlan(v4, v6);
    var es, z := pl.egresses, pl.zones[0];
    assert es[..|es| - 1] == [UPLINK] && [UPLINK][..0] == [] && es[|es| - 1] == GUARDED;
    assert NonWanOf([UPLINK]) == [];
    assert NonWanOf(es) == NonWanOf([UPLINK]) + [GUARDED] == [GUARDED];
    assert [GUARDED][1..] == [] && Sort([GUARDED], MarkLeq) == [GUARDED];
    assert GUARDED in es && z in pl.zones;
  }

  lemma LinuxInstallable(v4: seq<Prefix>, v6: seq<Prefix>, links: set<string>)
    requires v4 != [] || v6 != []
    ensures var pl, base := VpnPlan(v4, v6), Linux(links);
      && Installable(pl, OPTIONS, base) && Nftables.Loads(Nftables.Chain(pl))
      && (ApplyResult(pl, OPTIONS, base).ok <==> "wg0" in links)
  {
    var pl, base := VpnPlan(v4, v6), Linux(links);
    VpnShape(v4, v6);
    StockRulesClean(pl, OPTIONS, base, Addr(false, 0), {});
    StockRulesClean(pl, OPTIONS, base, Addr(true, 0), {});
    Nftables.ChainLoadsIff(pl);
    CleanIsFree(pl, OPTIONS, base);
    ApplySucceedsIff(pl, OPTIONS, base);
    assert GUARDED in NonWan(pl);
  }

  /** The chain puts the tunnel's mark on such a packet. */
  lemma VpnMarks(v6: bool)
    ensures var pl := if v6 then VpnPlan([], [LOW6]) else VpnPlan([LOW4], []);
      NftMark(pl, PublicPacket(v6), {}) * MASK == {17}
  {
    var pl, k := if v6 then VpnPlan([], [LOW6]) else VpnPlan([LOW4], []), PublicPacket(v6);
    VpnShape(pl.zones[0].v4, pl.zones[0].v6);
    PublicAddress(v6);
    Nftables.FreshChain(pl, k, {});
    assert ZoneMatches(pl.zones[0], k) by { assert Prefix(v6, 0, 1) in if v6 then pl.zones[0].v6 else pl.zones[0].v4; }
  }

  /**
   On a freshly booted Linux, with the plan applied and the kill-switched tunnel up, an IPv4
   packet for its zone takes the tunnel and an IPv6 one is dropped.
   */
  lemma TunnelUpDropsIPv6(v6: bool)
    ensures var pl, k := if v6 then VpnPlan([], [LOW6]) else VpnPlan([LOW4], []), PublicPacket(v6);
      && ApplyResult(pl, OPTIONS, Linux({"wg0"})).ok
      && Lookup(NftKernel(pl, OPTIONS, Linux({"wg0"})), DstAddr(k), NftMark(pl, k, {}), {"wg0"})
        == Routed(151, if v6 then Drop else Dev("wg0"))
  {
    var pl, k, base := if v6 then VpnPlan([], [LOW6]) else VpnPlan([LOW4], []), PublicPacket(v6), Linux({"wg0"});
    VpnShape(pl.zones[0].v4, pl.zones[0].v6);
    LinuxInstallable(pl.zones[0].v4, pl.zones[0].v6, {"wg0"});
    VpnMarks(v6);
    PublicAddress(v6);
    assert GUARDED in pl.egresses;
    StockKillSwitch(pl, OPTIONS, base, NftKernel(pl, OPTIONS, base), DstAddr(k), NftMark(pl, k, {}), GUARDED, {"wg0"});
  }

  /**
   Under a plan without IPv6, an IPv6 connection marked by an earlier plan gets its mark back and
   goes out by main.
   */
  lemma InheritedMarkExample()
    ensures var pl, k, base := VpnPlan([LOW4], []), PublicPacket(true), Linux({"wg0"});
      && ApplyResult(pl, OPTIONS, base).ok && NftMark(pl, k, {17}) * MASK == {17}
      && Consulted(Rules(NftKernel(pl, OPTIONS, base), true), DstAddr(k), NftMark(pl, k, {17})) ==
          [LOCAL_TABLE, MAIN_TABLE, 253]
  {
    var pl, k, base := VpnPlan([LOW4], []), PublicPacket(true), Linux({"wg0"});
    VpnShape([LOW4], []);
    LinuxInstallable([LOW4], [], {"wg0"});
    assert GUARDED in pl.egresses && {17} * MASK == {17};
    StockInherited(pl, OPTIONS, base, k, {17}, GUARDED);
  }

  lemma StockInherited(pl: Plan, o: Options, base: Kernel, k: Packet, ct: Word, e: Egress)
    requires GoodPlan(pl) && Installable(pl, o, base) && ApplyResult(pl, o, base).ok && !HasV6(pl) && k.v6
    requires e in pl.egresses && e.kind != WAN && ct * pl.mask == e.mark && Fresh(pl, k.mark)
    requires base.rules4 == STOCK_RULES && base.rules6 == STOCK_RULES
    requires 3 < o.rulePref && o.rulePref + |NonWan(pl)| <= 32766
    ensures NftMark(pl, k, ct) * pl.mask == e.mark
    ensures Consulted(Rules(NftKernel(pl, o, base), true), DstAddr(k), NftMark(pl, k, ct)) ==
        [LOCAL_TABLE, MAIN_TABLE, 253]
  {
    StockConsult(pl, o, base, DstAddr(k), k.mark);
    InheritedMarkUngated(pl, o, base, k, ct, e);
  }

  lemma StockConsult(pl: Plan, o: Options, base: Kernel, a: Addr, m: Word)
    requires CleanBase(pl, o, base) && base.rules4 == STOCK_RULES && base.rules6 == STOCK_RULES
    requires 3 < o.rulePref && o.rulePref + |NonWan(pl)| <= 32766
    ensures Consulted(Rules(base, a.v6), a, m) == [LOCAL_TABLE, MAIN_TABLE, 253]
  {
    BaseConsult(pl, o, base, a, m);
    StockRulesClean(pl, o, base, a, m);
  }

  /**
   With the kill-switched tunnel down when the plan is applied, `Apply` fails and a packet for
   its zone is looked up like an unmarked one; the script of the other plane drops it.
   */
  lemma TunnelDownLeaks(up: set<string>)
    ensures var pl, k, base := VpnPlan([LOW4], []), PublicPacket(false), Linux({});
      var a, m := DstAddr(k), NftMark(pl, k, {});
      && !ApplyResult(pl, OPTIONS, base).ok
      && Lookup(NftKernel(pl, OPTIONS, base), a, m, up)
        == Resolve(NftKernel(pl, OPTIONS, base), [LOCAL_TABLE, MAIN_TABLE, 253], a, up)
      && Lookup(IptKernel(pl, OPTIONS, base), a, m, up) == Routed(151, Drop)
  {
    var pl, k, base := VpnPlan([LOW4], []), PublicPacket(false), Linux({});
    var a, m := DstAddr(k), NftMark(pl, k, {});
    VpnShape([LOW4], []);
    LinuxInstallable([LOW4], [], {});
    VpnMarks(false);
    PublicAddress(false);
    StockConsult(pl, OPTIONS, base, a, m);
    FailedApplyLeaks(pl, OPTIONS, base, a, m, 0, up);
    assert GUARDED in pl.egresses;
    StockKillSwitch(pl, OPTIONS, base, IptKernel(pl, OPTIONS, base), a, m, GUARDED, up);
  }
}
