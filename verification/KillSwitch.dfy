/**
 Where a marked packet goes, whatever links are down: the fail-closed promises of
 `RenderIP` and `RenderIPScript`, and the exact cases in which the main table is reached.
 */
module KillSwitch {
  import opened Cidr
  import opened Profiles
  import opened Compile
  import opened Datapath
  import opened PolicyRouting
  import opened ApplyTeardown
  import opened PlaneEquivalence
  import opened Sequences
  import Nftables
  import Iptables

  function DevMetric(k: Kernel, v6: bool): nat { if v6 then k.metric6 else k.metric4 }

  lemma DefaultContains(a: Addr)
    requires a.n < Pow2(Width(a.v6))
    ensures Contains(Prefix(a.v6, 0, 0), a)
  {
    var w := Pow2(Width(a.v6));
    DivideUnique(a.n, w, 0, a.n);
    DivideUnique(0, w, 0, 0);
  }

  lemma TwoRoutes(x: Route, y: Route, a: Addr, up: set<string>)
    ensures Best([x], a, up) == if Usable(x, a, up) then Some(x) else None
    ensures Best([x, y], a, up) ==
      if Usable(y, a, up) && (!Usable(x, a, up) || Better(y, x)) then Some(y)
      else if Usable(x, a, up) then Some(x) else None
  {
    assert [x][..0] == [] && [x, y][..1] == [x];
  }

  /** What an egress's own table answers while the links in `up` have stayed up since it was filled. */
  function TableAnswer(k: Kernel, v6: bool, e: Egress, up: set<string>): Option<Hop> {
    var live := e.iface in k.links && e.iface in up;
    match e.kind
    case WAN => None
    case Blackhole => Some(Drop)
    case Tunnel =>
      if e.failClosed then Some(if live && DevMetric(k, v6) < FAIL_CLOSED_METRIC then Dev(e.iface) else Drop)
      else if live then Some(Dev(e.iface)) else None
  }

  lemma TableAnswers(k: Kernel, v6: bool, e: Egress, a: Addr, up: set<string>)
    requires e.kind != WAN && a.v6 == v6 && a.n < Pow2(Width(v6))
    ensures var b := Best(TableRoutes(k, v6, e), a, up);
      match TableAnswer(k, v6, e, up) case None => b == None case Some(h) => b.Some? && b.value.hop == h
  {
    DefaultContains(a);
    var dev := DefaultRoute(k, v6, None, Dev(e.iface));
    var drop := DefaultRoute(k, v6, Some(FAIL_CLOSED_METRIC), Drop);
    TwoRoutes(dev, drop, a, up);
    TwoRoutes(drop, drop, a, up);
    TwoRoutes(DefaultRoute(k, v6, None, Drop), drop, a, up);
    assert PutRoute([dev], drop) == if SameKey(dev, drop) then [drop] else [dev, drop];
  }

  /** The state a successful `Apply` or the script leaves behind. */
  ghost predicate Installed(pl: Plan, o: Options, base: Kernel, kern: Kernel) {
    && Installable(pl, o, base)
    && ((ApplyResult(pl, o, base).ok && kern == NftKernel(pl, o, base)) || kern == IptKernel(pl, o, base))
  }

  lemma InstalledEither(pl: Plan, o: Options, base: Kernel, kern: Kernel, v6: bool, t: int)
    requires Installed(pl, o, base, kern)
    ensures Rules(kern, v6) == PlanRules(pl, o, base, v6)
    ensures Routes(pl, v6) ==>
              forall e :: e in NonWan(pl) && e.table == t ==> Table(kern, v6, t) == TableRoutes(base, v6, e)
    ensures (forall e :: e in NonWan(pl) ==> e.table != t) ==> Table(kern, v6, t) == Table(base, v6, t)
  {
    InstalledRules(pl, o, base, v6);
    InstalledTables(pl, o, base, v6, t);
    if ApplyResult(pl, o, base).ok { AppliedState(pl, o, base, v6, t); }
  }

  /** The tables such a packet consults, and what the first of the plan's holds. */
  lemma MarkedPacketTables(pl: Plan, o: Options, base: Kernel, kern: Kernel, a: Addr, m: Word, e: Egress)
    requires GoodPlan(pl) && Installed(pl, o, base, kern)
    requires e in pl.egresses && e.kind != WAN && m * pl.mask == e.mark && Routes(pl, a.v6)
    ensures Consulted(Rules(kern, a.v6), a, m) == Early(o, base, a, m) + Pinned(pl, a) + [e.table] + Late(o, base, a, m)
    ensures Table(kern, a.v6, e.table) == TableRoutes(base, a.v6, e)
  {
    InstalledEither(pl, o, base, kern, a.v6, e.table);
    OwnConsult(pl, o, base, kern, a, m, m);
    OwnHit(pl, m * pl.mask);
    NonWanMembers(pl);
  }

  lemma {:induction false} ResolveConcat(k: Kernel, x: seq<int>, y: seq<int>, a: Addr, up: set<string>)
    ensures Resolve(k, x + y, a, up) ==
      if Resolve(k, x, a, up).Routed? then Resolve(k, x, a, up) else Resolve(k, y, a, up)
  {
    if x == [] {
      assert x + y == y;
    } else {
      assert (x + y)[1..] == x[1..] + y;
      ResolveConcat(k, x[1..], y, a, up);
    }
  }

  /** What the rules in front of the plan do with a packet, for instance delivery to the router itself. */
  function EarlyFate(o: Options, base: Kernel, kern: Kernel, a: Addr, m: Word, up: set<string>): Fate {
    Resolve(kern, Early(o, base, a, m), a, up)
  }

  /**
   A packet carrying a non-WAN egress's mark, to a public address, in a family the plan
   routes: once no rule in front of the plan routes it, its egress's table is consulted, and
   it goes on to the rules behind exactly when that egress is a tunnel without kill switch
   whose interface is down. So a blackhole or kill-switched egress never lets it reach main.
   */
  lemma MarkedPacketFate(pl: Plan, o: Options, base: Kernel, kern: Kernel, a: Addr, m: Word, e: Egress, up: set<string>)
    requires GoodPlan(pl) && Installed(pl, o, base, kern)
    requires e in pl.egresses && e.kind != WAN && m * pl.mask == e.mark
    requires Routes(pl, a.v6) && !Covered(PrivateRanges(a.v6), a) && a.n < Pow2(Width(a.v6))
    ensures Lookup(kern, a, m, up) ==
      if EarlyFate(o, base, kern, a, m, up).Routed? then EarlyFate(o, base, kern, a, m, up)
      else
        match TableAnswer(base, a.v6, e, up)
        case Some(h) => Routed(e.table, h)
        case None => Resolve(kern, Late(o, base, a, m), a, up)
    ensures TableAnswer(base, a.v6, e, up) == None <==>
      e.kind == Tunnel && !e.failClosed && (e.iface !in base.links || e.iface !in up)
  {
    MarkedPacketTables(pl, o, base, kern, a, m, e);
    Stages(kern, Early(o, base, a, m), e.table, Late(o, base, a, m), a, up);
    TableAnswers(base, a.v6, e, a, up);
  }

  /** An earlier table decides, else the one in the middle, else a later one. */
  lemma Stages(kern: Kernel, early: seq<int>, t: int, late: seq<int>, a: Addr, up: set<string>)
    ensures Resolve(kern, early + [] + [t] + late, a, up) ==
      if Resolve(kern, early, a, up).Routed? then Resolve(kern, early, a, up)
      else
        match Best(Table(kern, a.v6, t), a, up)
        case Some(r) => Routed(t, r.hop)
        case None => Resolve(kern, late, a, up)
  {
    assert early + [] + [t] + late == early + ([t] + late);
    ResolveConcat(kern, early, [t] + late, a, up);
    FirstTable(kern, t, late, a, up);
  }

  lemma FirstTable(kern: Kernel, t: int, rest: seq<int>, a: Addr, up: set<string>)
    ensures Resolve(kern, [t] + rest, a, up) ==
      match Best(Table(kern, a.v6, t), a, up) case Some(r) => Routed(t, r.hop) case None => Resolve(kern, rest, a, up)
  {
    assert ([t] + rest)[1..] == rest;
  }

  /**
   A packet to a private address, whatever its mark, is looked up in the main table before any
   egress's: once no rule in front of the plan routes it, a route of main that can carry it does.
   */
  lemma PrivateStaysOnMain(pl: Plan, o: Options, base: Kernel, kern: Kernel, a: Addr, m: Word, up: set<string>)
    requires GoodPlan(pl) && Installed(pl, o, base, kern) && Routes(pl, a.v6) && Private(a)
    requires forall e :: e in NonWan(pl) ==> e.table != 254
    ensures var early, main := EarlyFate(o, base, kern, a, m, up), Best(Table(base, a.v6, 254), a, up);
      && (early.Routed? ==> Lookup(kern, a, m, up) == early)
      && (!early.Routed? && main.Some? ==> Lookup(kern, a, m, up) == Routed(254, main.value.hop))
  {
    InstalledEither(pl, o, base, kern, a.v6, 254);
    PrivateTables(pl, o, base, kern, a, m);
    Stages(kern, Early(o, base, a, m), 254, HitOf(NonWan(pl), m * pl.mask) + Late(o, base, a, m), a, up);
  }

  lemma PrivateTables(pl: Plan, o: Options, base: Kernel, kern: Kernel, a: Addr, m: Word)
    requires GoodPlan(pl) && Installed(pl, o, base, kern) && Routes(pl, a.v6) && Private(a)
    ensures Consulted(Rules(kern, a.v6), a, m) ==
      Early(o, base, a, m) + [] + [254] + (HitOf(NonWan(pl), m * pl.mask) + Late(o, base, a, m))
  {
    PrivateAre(a);
    InstalledEither(pl, o, base, kern, a.v6, 254);
    OwnConsult(pl, o, base, kern, a, m, m);
    AroundMain(Early(o, base, a, m), HitOf(NonWan(pl), m * pl.mask), Late(o, base, a, m));
  }

  lemma AroundMain(early: seq<int>, hit: seq<int>, late: seq<int>)
    ensures early + [254] + hit + late == early + [] + [254] + (hit + late)
  {
    Concat4(early, [254], hit, late);
    assert early + [] == early;
  }

  /** The kill switch holds for every set of live links, and uses the tunnel exactly while it wins on metric. */
  lemma KillSwitchHolds(pl: Plan, o: Options, base: Kernel, kern: Kernel, a: Addr, m: Word, e: Egress, up: set<string>)
    requires GoodPlan(pl) && Installed(pl, o, base, kern)
    requires e in pl.egresses && m * pl.mask == e.mark && (e.kind == Blackhole || (e.kind == Tunnel && e.failClosed))
    requires Routes(pl, a.v6) && !Covered(PrivateRanges(a.v6), a) && a.n < Pow2(Width(a.v6))
    ensures var f, early := Lookup(kern, a, m, up), EarlyFate(o, base, kern, a, m, up);
      if early.Routed? then f == early
      else
        && (f == Routed(e.table, Drop) || (e.kind == Tunnel && f == Routed(e.table, Dev(e.iface))))
        && (f == Routed(e.table, Dev(e.iface)) <==>
              e.kind == Tunnel && e.iface in base.links && e.iface in up && DevMetric(base, a.v6) < 1000)
  {
    MarkedPacketFate(pl, o, base, kern, a, m, e, up);
  }

  /**
   On a router whose other rules are the kernel's own, a packet that is not for the router
   itself is dropped or sent into the tunnel, whatever happens to the links.
   */
  lemma StockKillSwitch(pl: Plan, o: Options, base: Kernel, kern: Kernel, a: Addr, m: Word, e: Egress, up: set<string>)
    requires GoodPlan(pl) && Installed(pl, o, base, kern) && base.rules4 == STOCK_RULES && base.rules6 == STOCK_RULES
    requires 3 < o.rulePref && o.rulePref + |NonWan(pl)| <= 32766
    requires forall x :: x in NonWan(pl) ==> x.table != LOCAL_TABLE
    requires Best(Table(base, a.v6, LOCAL_TABLE), a, up) == None
    requires e in pl.egresses && m * pl.mask == e.mark && (e.kind == Blackhole || (e.kind == Tunnel && e.failClosed))
    requires Routes(pl, a.v6) && !Covered(PrivateRanges(a.v6), a) && a.n < Pow2(Width(a.v6))
    ensures Lookup(kern, a, m, up) ==
      Routed(
        e.table,
        if e.kind == Tunnel && e.iface in base.links && e.iface in up && DevMetric(base, a.v6) < 1000
        then Dev(e.iface) else Drop)
  {
    KillSwitchHolds(pl, o, base, kern, a, m, e, up);
    StockRulesClean(pl, o, base, a, m);
    InstalledEither(pl, o, base, kern, a.v6, LOCAL_TABLE);
    FirstTable(kern, LOCAL_TABLE, [], a, up);
    assert [LOCAL_TABLE] + [] == [LOCAL_TABLE];
  }

  /** Linux gives an IPv6 route without metric 1024 and an IPv4 one 0. */
  const LINUX_METRIC6 := 1024

  /**
   So on Linux a kill-switched tunnel carries IPv4 while it is up but never IPv6: the
   blackhole at metric 1000 ranks before the tunnel route.
   */
  lemma KillSwitchDropsIPv6(pl: Plan, o: Options, base: Kernel, kern: Kernel, a: Addr, m: Word, e: Egress,
        up: set<string>)
    requires GoodPlan(pl) && Installed(pl, o, base, kern) && base.metric4 == 0 && base.metric6 == LINUX_METRIC6
    requires e in pl.egresses && m * pl.mask == e.mark && e.kind == Tunnel && e.failClosed && e.iface in base.links
        && e.iface in up
    requires Routes(pl, a.v6) && !Covered(PrivateRanges(a.v6), a) && a.n < Pow2(Width(a.v6))
    requires EarlyFate(o, base, kern, a, m, up) == Unreachable
    ensures Lookup(kern, a, m, up) == Routed(e.table, if a.v6 then Drop else Dev(e.iface))
  {
    KillSwitchHolds(pl, o, base, kern, a, m, e, up);
  }

  // ---- a family without rules ----

  /**
   The IPv6 gate, exactly: an IPv6 packet carrying a non-WAN mark has its egress's table
   consulted if and only if the plan counts as marking IPv6.
   */
  lemma V6GateExact(pl: Plan, o: Options, base: Kernel, kern: Kernel, a: Addr, m: Word, e: Egress)
    requires GoodPlan(pl) && Installed(pl, o, base, kern) && a.v6
    requires e in pl.egresses && e.kind != WAN && m * pl.mask == e.mark
    requires e.table != MAIN_TABLE && e.table !in Consulted(Rules(base, true), a, m)
    ensures e.table in Consulted(Rules(kern, true), a, m) <==> HasV6(pl)
  {
    var early, late := Early(o, base, a, m), Late(o, base, a, m);
    InstalledEither(pl, o, base, kern, true, e.table);
    OwnConsult(pl, o, base, kern, a, m, m);
    OwnHit(pl, m * pl.mask);
    BaseConsult(pl, o, base, a, m);
    if HasV6(pl) {
      assert Consulted(Rules(kern, true), a, m) == early + Pinned(pl, a) + [e.table] + late;
    } else {
      assert Consulted(Rules(kern, true), a, m) == early + [] + [] + late;
    }
  }

  /** Without the plan, the rules on both sides of it follow one another. */
  lemma BaseConsult(pl: Plan, o: Options, base: Kernel, a: Addr, m: Word)
    requires CleanBase(pl, o, base)
    ensures Consulted(Rules(base, a.v6), a, m) == Early(o, base, a, m) + Late(o, base, a, m)
  {
    CleanAround(pl, o, base, a.v6);
    ConsultedConcat(InFront(o, base, a.v6), Behind(o, base, a.v6), a, m);
  }

  /**
   The restore lines of the nft chain are not behind that gate: under a plan that marks no
   IPv6, an IPv6 connection still carrying an egress mark from an earlier plan gets that
   mark back, while no IPv6 rule of this plan exists to route it.
   */
  lemma InheritedMarkUngated(pl: Plan, o: Options, base: Kernel, k: Packet, ct: Word, e: Egress)
    requires GoodPlan(pl) && Installable(pl, o, base) && ApplyResult(pl, o, base).ok && !HasV6(pl) && k.v6
    requires e in pl.egresses && e.kind != WAN && ct * pl.mask == e.mark && Fresh(pl, k.mark)
    ensures NftMark(pl, k, ct) * pl.mask == e.mark
    ensures Consulted(Rules(NftKernel(pl, o, base), true), DstAddr(k), NftMark(pl, k, ct))
         == Consulted(Rules(base, true), DstAddr(k), k.mark)
  {
    Nftables.ChainRun(pl, DeclaredSets(pl), k, Marks(k.mark, ct));
    CoveredNonEmpty(pl.bypassV6, DstAddr(k));
    Nftables.OwnedBits(pl.mask, k.mark, e.mark);
    AppliedState(pl, o, base, true, 0);
    OwnConsult(pl, o, base, NftKernel(pl, o, base), DstAddr(k), NftMark(pl, k, ct), k.mark);
    BaseConsult(pl, o, base, DstAddr(k), k.mark);
    assert Early(o, base, DstAddr(k), k.mark) + [] + [] == Early(o, base, DstAddr(k), k.mark);
  }

  /** The iptables plane installs no IPv6 chain there, so the same packet keeps its own mark. */
  lemma InheritedMarkIptables(pl: Plan, s86: Word, sets: Sets, k: Packet, ct: Word)
    requires !HasV6(pl) && k.v6
    ensures Iptables.Plane(pl, s86, sets, k, Marks(k.mark, ct)) == Marks(k.mark, ct)
  {}
}
