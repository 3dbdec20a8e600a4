/**
 The two kernel planes route identically: on every packet of a fresh flow the nft chain with
 the rules of `RenderIP`, and the iptables chain with the rules of `RenderIPScript`, consult
 the same tables, namely those of the decision in `Datapath`.
 */
module PlaneEquivalence {
  import opened Sorting
  import opened Cidr
  import opened Profiles
  import opened Compile
  import opened Datapath
  import opened PolicyRouting
  import opened Sequences
  import opened ApplyTeardown
  import Nftables
  import Iptables

  // ---- the specification ----

  function EgressByTag(es: seq<Egress>, tag: string): Option<Egress> {
    if es == [] then None else if es[0].tag == tag then Some(es[0]) else EgressByTag(es[1..], tag)
  }

  /** The table of the chosen zone's egress; WAN and unclaimed traffic choose none. */
  function ChosenTable(pl: Plan, k: Packet): seq<int> {
    match Decide(pl, k)
    case Main => []
    case Claimed(z) =>
      match EgressByTag(pl.egresses, z.tag)
      case None => []
      case Some(e) => if e.kind == WAN then [] else [e.table]
  }

  /** A family the plan installs rules for. */
  predicate Routes(pl: Plan, v6: bool) { v6 ==> HasV6(pl) }

  function Pinned(pl: Plan, a: Addr): seq<int> {
    if Routes(pl, a.v6) && Covered(PrivateRanges(a.v6), a) then [MAIN_TABLE] else []
  }

  /** The tables the rules in front of the plan lead to, such as the local table. */
  function Early(o: Options, base: Kernel, a: Addr, m: Word): seq<int> { Consulted(InFront(o, base, a.v6), a, m) }

  /** And the tables behind it, such as the main table. */
  function Late(o: Options, base: Kernel, a: Addr, m: Word): seq<int> { Consulted(Behind(o, base, a.v6), a, m) }

  /**
   The rules in front of the plan come first; then private destinations look in main, the
   others in the chosen egress; then whatever the rules behind the plan say.
   */
  function SpecTables(pl: Plan, o: Options, base: Kernel, k: Packet): seq<int> {
    Early(o, base, DstAddr(k), k.mark) + Pinned(pl, DstAddr(k)) + ChosenTable(pl, k) + Late(o, base, DstAddr(k), k.mark)
  }

  /** Rules of other software that do not select on the bits the plan owns. */
  ghost predicate IgnoresOwned(rs: seq<IpRule>, mask: Word) {
    forall r :: r in rs && r.sel.FwMark? ==> r.sel.mask !! mask
  }

  // ---- consulting the plan's own rules ----

  lemma SameMarkSelect(m: Word, sel: Word, mask: Word, w: Word)
    requires sel !! mask && m - mask == w - mask
    ensures m * sel == w * sel
  {
    forall i ensures i in m * sel <==> i in w * sel {
      if i in sel { assert i in m - mask <==> i in w - mask; }
    }
  }

  lemma {:induction false} ForeignConsult(rs: seq<IpRule>, mask: Word, a: Addr, m: Word, w: Word)
    requires IgnoresOwned(rs, mask) && m - mask == w - mask
    ensures Consulted(rs, a, m) == Consulted(rs, a, w)
  {
    if rs != [] {
      assert rs[0] in rs;
      if rs[0].sel.FwMark? { SameMarkSelect(m, rs[0].sel.mask, mask, w); }
      ForeignConsult(rs[1..], mask, a, m, w);
    }
  }

  ghost predicate MarksDistinct(es: seq<Egress>) {
    forall i, j :: 0 <= i < j < |es| ==> es[i].mark != es[j].mark
  }

  /** The table an owned mark selects among the egresses. */
  function HitOf(es: seq<Egress>, w: Word): seq<int> {
    if es == [] then [] else if es[0].mark == w then [es[0].table] else HitOf(es[1..], w)
  }

  lemma {:induction false} HitOfOwner(es: seq<Egress>, w: Word)
    requires MarksDistinct(es)
    ensures (forall e :: e in es ==> e.mark != w) ==> HitOf(es, w) == []
    ensures forall e :: e in es && e.mark == w ==> HitOf(es, w) == [e.table]
  {
    if es != [] {
      HitOfOwner(es[1..], w);
      assert es[0] in es && es == [es[0]] + es[1..];
      forall e | e in es && e.mark == w ensures HitOf(es, w) == [e.table] {
        var i :| 0 <= i < |es| && es[i] == e;
        if i > 0 { assert es[1..][i - 1] == e; }
      }
    }
  }

  /** At most one fwmark rule matches: that of the egress owning the mark. */
  lemma {:induction false} FwConsult(mask: Word, pref: int, es: seq<Egress>, a: Addr, m: Word)
    requires MarksDistinct(es)
    ensures Consulted(FwRules(mask, pref, es), a, m) == HitOf(es, m * mask)
  {
    FwConsultFrom(FwRules(mask, pref, es), es, mask, a, m);
  }

  lemma {:induction false} FwConsultFrom(rs: seq<IpRule>, es: seq<Egress>, mask: Word, a: Addr, m: Word)
    requires |rs| == |es| && MarksDistinct(es)
    requires forall i :: 0 <= i < |es| ==> rs[i].sel == FwMark(es[i].mark, mask) && rs[i].table == es[i].table
    ensures Consulted(rs, a, m) == HitOf(es, m * mask)
  {
    if es != [] {
      FwConsultFrom(rs[1..], es[1..], mask, a, m);
      if es[0].mark == m * mask {
        HitOfOwner(es[1..], m * mask);
      }
    }
  }

  lemma Sizes()
    ensures Pow2(24) == 0x1000000 && Pow2(20) == 0x100000 && Pow2(16) == 0x10000
  {
    assert Pow2(4) == 16;
    Pow2Adds(4, 4);
    Pow2Adds(8, 8);
    Pow2Adds(16, 4);
    Pow2Adds(16, 8);
  }

  lemma BigSizes()
    ensures Pow2(118) * 8 == Pow2(121)
  {
    assert Pow2(3) == 8;
    Pow2Adds(118, 3);
  }

  /** No address lies in two private ranges. */
  lemma PrivateDisjoint(v6: bool, i: nat, j: nat, a: Addr)
    requires i < j < |PrivateRanges(v6)|
    ensures !(Contains(PrivateRanges(v6)[i], a) && Contains(PrivateRanges(v6)[j], a))
  {
    if v6 {
      PrivateSix(a);
    } else {
      PrivateFour(i, j, a);
    }
  }

  lemma PrivateFour(i: nat, j: nat, a: Addr)
    requires i < j < 3
    ensures !(Contains(PRIVATE_V4[i], a) && Contains(PRIVATE_V4[j], a))
  {
    Sizes();
  }

  lemma PrivateSix(a: Addr)
    ensures !(Contains(PRIVATE_V6[0], a) && Contains(PRIVATE_V6[1], a))
  {
    BigSizes();
    DivideTwice(a.n, Pow2(118), 8);
    Masks6();
  }

  lemma Masks6()
    ensures PRIVATE_V6[0].addr / Pow2(121) == 0x7e
    ensures PRIVATE_V6[1].addr / Pow2(118) == 0x3fa
  {
    DivideUnique(PRIVATE_V6[0].addr, Pow2(121), 0x7e, 0);
    DivideUnique(PRIVATE_V6[1].addr, Pow2(118), 0x3fa, 0);
  }

  /**
   The destinations that never go to an egress: 10.0.0.0 to 10.255.255.255, 172.16.0.0 to
   172.31.255.255 and 192.168.0.0 to 192.168.255.255; and the IPv6 addresses that start with
   the seven bits of fc00::/7 or the ten of fe80::/10.
   */
  predicate Private(a: Addr) {
    if a.v6 then a.n / Pow2(121) == 0x7e || a.n / Pow2(118) == 0x3fa
    else
      || 0x0A000000 <= a.n <= 0x0AFFFFFF
      || 0xAC100000 <= a.n <= 0xAC1FFFFF
      || 0xC0A80000 <= a.n <= 0xC0A8FFFF
  }

  lemma PrivateAre(a: Addr)
    ensures Covered(PrivateRanges(a.v6), a) <==> Private(a)
  {
    var ps := PrivateRanges(a.v6);
    if a.v6 {
      Masks6();
      assert ps[0] in ps && ps[1] in ps;
    } else {
      Sizes();
      assert ps[0] in ps && ps[1] in ps && ps[2] in ps;
      ContainsIsRange(ps[0], a);
      ContainsIsRange(ps[1], a);
      ContainsIsRange(ps[2], a);
    }
  }

  lemma {:induction false} ToConsult(ps: seq<Prefix>, lo: int, a: Addr, m: Word)
    requires forall i, j :: 0 <= i < j < |ps| ==> !(Contains(ps[i], a) && Contains(ps[j], a))
    ensures Consulted(seq(|ps|, j requires 0 <= j < |ps| => IpRule(lo + j, To(ps[j]), MAIN_TABLE)), a, m) ==
      if Covered(ps, a) then [MAIN_TABLE] else []
  {
    var all := seq(|ps|, j requires 0 <= j < |ps| => IpRule(lo + j, To(ps[j]), MAIN_TABLE));
    if ps != [] {
      var n := |ps| - 1;
      var part := seq(|ps[..n]|, j requires 0 <= j < |ps[..n]| => IpRule(lo + j, To(ps[..n][j]), MAIN_TABLE));
      assert all == part + [all[n]];
      assert ps == ps[..n] + [ps[n]];
      ToConsult(ps[..n], lo, a, m);
      ConsultedConcat(part, [all[n]], a, m);
      assert [all[n]][1..] == [];
      assert ps[n] in ps;
      forall p | p in ps[..n] ensures p in ps && !(Contains(ps[n], a) && Contains(p, a)) {
        var i :| 0 <= i < n && ps[i] == p;
      }
    }
  }

  lemma ExcludesConsult(pref: int, a: Addr, m: Word)
    ensures Consulted(Excludes(pref, a.v6), a, m) == if Covered(PrivateRanges(a.v6), a) then [MAIN_TABLE] else []
  {
    var ps := PrivateRanges(a.v6);
    forall i, j | 0 <= i < j < |ps|
      ensures !(Contains(ps[i], a) && Contains(ps[j], a)) { PrivateDisjoint(a.v6, i, j, a); }
    ToConsult(ps, pref - |ps|, a, m);
    assert Excludes(pref, a.v6) ==
      seq(|ps|, j requires 0 <= j < |ps| => IpRule(pref - |ps| + j, To(ps[j]), MAIN_TABLE));
  }

  lemma {:induction false} NonWanOfDistinct(es: seq<Egress>)
    requires MarksDistinct(es)
    ensures MarksDistinct(NonWanOf(es))
  {
    if es != [] {
      var n := |es| - 1;
      NonWanOfDistinct(es[..n]);
      NonWanKinds(es[..n]);
      forall e | e in NonWanOf(es[..n]) ensures e.mark != es[n].mark {
        var i :| 0 <= i < n && es[i] == e;
      }
    }
  }

  lemma NonWanDistinct(pl: Plan)
    requires MarksDistinct(pl.egresses)
    ensures MarksDistinct(NonWan(pl))
  {
    var es := NonWanOf(pl.egresses);
    NonWanOfDistinct(pl.egresses);
    SortPermutes(es, MarkLeq);
    assert Distinct(es);
    DistinctFromMultiset(es, NonWan(pl));
    forall i, j | 0 <= i < j < |NonWan(pl)| ensures NonWan(pl)[i].mark != NonWan(pl)[j].mark {
      var x, y := NonWan(pl)[i], NonWan(pl)[j];
      assert x in es && y in es;
      var a :| 0 <= a < |es| && es[a] == x;
      var b :| 0 <= b < |es| && es[b] == y;
    }
  }

  /** The tables an owned mark leads to, whichever installer ran. */
  lemma OwnConsult(pl: Plan, o: Options, base: Kernel, kern: Kernel, a: Addr, m: Word, w: Word)
    requires GoodShape(pl) && Rules(kern, a.v6) == PlanRules(pl, o, base, a.v6)
    requires IgnoresOwned(Rules(base, a.v6), pl.mask) && m - pl.mask == w - pl.mask
    ensures Consulted(Rules(kern, a.v6), a, m) ==
      Early(o, base, a, w) + Pinned(pl, a) + (if Routes(pl, a.v6) then HitOf(NonWan(pl), m * pl.mask) else []) +
        Late(o, base, a, w)
  {
    var lo, hi := InFront(o, base, a.v6), Behind(o, base, a.v6);
    ForeignConsult(lo, pl.mask, a, m, w);
    ForeignConsult(hi, pl.mask, a, m, w);
    ConsultedConcat(lo + OwnRules(pl, o, a.v6), hi, a, m);
    ConsultedConcat(lo, OwnRules(pl, o, a.v6), a, m);
    PlanConsult(pl, o, a, m);
    Concat3(Early(o, base, a, w), Pinned(pl, a), if Routes(pl, a.v6) then HitOf(NonWan(pl), m * pl.mask) else []);
  }

  /** The plan's own rules: private ranges first, then at most one egress. */
  lemma PlanConsult(pl: Plan, o: Options, a: Addr, m: Word)
    requires GoodShape(pl)
    ensures Consulted(OwnRules(pl, o, a.v6), a, m) ==
      Pinned(pl, a) + (if Routes(pl, a.v6) then HitOf(NonWan(pl), m * pl.mask) else [])
  {
    var es := NonWan(pl);
    ConsultedConcat(Excludes(o.rulePref, a.v6), FwRules(pl.mask, o.rulePref, es), a, m);
    ExcludesConsult(o.rulePref, a, m);
    NonWanDistinct(pl);
    FwConsult(pl.mask, o.rulePref, es, a, m);
  }

  /** The egress a mark belongs to decides the table; WAN and foreign marks select none. */
  lemma OwnHit(pl: Plan, w: Word)
    requires GoodShape(pl)
    ensures w == {} || w == WanMark(pl) ==> HitOf(NonWan(pl), w) == []
    ensures forall e :: e in pl.egresses && e.mark == w
              ==> HitOf(NonWan(pl), w) == if e.kind == WAN then [] else [e.table]
  {
    NonWanDistinct(pl);
    NonWanMembers(pl);
    HitOfOwner(NonWan(pl), w);
    assert pl.egresses[0] in pl.egresses;
    MarkOwner(pl, pl.egresses[0]);
    forall e | e in pl.egresses && e.mark == w ensures HitOf(NonWan(pl), w) == if e.kind == WAN then [] else [e.table] {
      MarkOwner(pl, e);
    }
  }

  lemma {:induction false} EgressOfZone(es: seq<Egress>, e: Egress)
    requires e in es && forall i, j :: 0 <= i < j < |es| ==> es[i].tag != es[j].tag
    ensures EgressByTag(es, e.tag) == Some(e)
  {
    if es[0] != e {
      var i :| 0 <= i < |es| && es[i] == e;
      assert es[1..][i - 1] == e;
      EgressOfZone(es[1..], e);
    }
  }

  /** A decision's mark and the table of its egress belong together. */
  lemma DecisionTables(pl: Plan, o: Options, base: Kernel, kern: Kernel, k: Packet, m: Word)
    requires GoodShape(pl) && Rules(kern, k.v6) == PlanRules(pl, o, base, k.v6)
    requires IgnoresOwned(Rules(base, k.v6), pl.mask) && m - pl.mask == k.mark - pl.mask
    requires match Decide(pl, k)
      case Main => m * pl.mask == {} || m * pl.mask == WanMark(pl)
      case Claimed(z) => m * pl.mask == z.mark
    ensures Consulted(Rules(kern, k.v6), DstAddr(k), m) == SpecTables(pl, o, base, k)
  {
    OwnConsult(pl, o, base, kern, DstAddr(k), m, k.mark);
    OwnHit(pl, m * pl.mask);
    if Decide(pl, k).Claimed? { ChosenHit(pl, k); }
  }

  lemma ChosenHit(pl: Plan, k: Packet)
    requires GoodShape(pl) && Decide(pl, k).Claimed?
    ensures Routes(pl, k.v6) && HitOf(NonWan(pl), Decide(pl, k).zone.mark) == ChosenTable(pl, k)
  {
    var z := Decide(pl, k).zone;
    LastClaimIsLast(pl.zones, k);
    ClaimedRoutes(pl, k);
    var e :| e in pl.egresses && e.tag == z.tag && e.mark == z.mark;
    EgressOfZone(pl.egresses, e);
    OwnHit(pl, z.mark);
  }

  lemma MarkOwner(pl: Plan, e: Egress)
    requires GoodShape(pl) && e in pl.egresses
    ensures forall x :: x in pl.egresses && x.mark == e.mark ==> x == e
  {
    forall x | x in pl.egresses && x.mark == e.mark ensures x == e {
      var i :| 0 <= i < |pl.egresses| && pl.egresses[i] == e;
      var j :| 0 <= j < |pl.egresses| && pl.egresses[j] == x;
    }
  }

  lemma ClaimedRoutes(pl: Plan, k: Packet)
    requires GoodShape(pl) && Decide(pl, k).Claimed?
    ensures Routes(pl, k.v6)
  {
    LastClaimIsLast(pl.zones, k);
    if k.v6 && !HasV6(pl) { NoV6NoClaim(pl, k); }
  }

  lemma {:induction false} ResolveSame(x: Kernel, y: Kernel, ts: seq<int>, a: Addr, up: set<string>)
    requires forall t :: Table(x, a.v6, t) == Table(y, a.v6, t)
    ensures Resolve(x, ts, a, up) == Resolve(y, ts, a, up)
  {
    if ts != [] { ResolveSame(x, y, ts[1..], a, up); }
  }

  /** What installing a plan needs: distinct tables, a clean start state, foreign rules that mind their own bits. */
  ghost predicate Installable(pl: Plan, o: Options, base: Kernel) {
    && TablesDistinct(NonWan(pl)) && CleanBase(pl, o, base)
    && IgnoresOwned(base.rules4, pl.mask) && IgnoresOwned(base.rules6, pl.mask)
  }

  /** What `Apply` leaves behind, and what running the script does. */
  function NftKernel(pl: Plan, o: Options, base: Kernel): Kernel { ApplyResult(pl, o, base).k }
  function IptKernel(pl: Plan, o: Options, base: Kernel): Kernel { ExecAll(base, ScriptCmds(pl, o)) }

  lemma CleanIsFree(pl: Plan, o: Options, base: Kernel)
    requires CleanBase(pl, o, base)
    ensures FreeOf(pl, o, base)
  {
    forall v6, r | r in OwnRules(pl, o, v6) ensures r !in Rules(base, v6) {
      PrioritiesDistinct(pl, o, v6);
      CleanAround(pl, o, base, v6);
    }
    forall v6: bool, t: int | OwnsTable(pl, t) ensures (v6, t) !in base.routes {
      var e :| e in NonWan(pl) && e.table == t;
      assert Table(base, v6, e.table) == [];
    }
    forall key | OwnKey(pl, key) ensures key !in base.routes { assert key == (key.0, key.1); }
  }

  lemma LoadedAlike(pl: Plan, o: Options, base: Kernel, loaded: Kernel, v6: bool, t: int)
    requires CleanBase(pl, o, base) && loaded.routes == base.routes && SameHost(loaded, base)
    requires forall f :: Rules(loaded, f) == Rules(base, f)
    ensures CleanBase(pl, o, loaded) && PlanRules(pl, o, loaded, v6) == PlanRules(pl, o, base, v6)
    ensures Table(ExecAll(loaded, InstallCmds(pl, o)), v6, t) == Table(ExecAll(base, InstallCmds(pl, o)), v6, t)
  {
    assert Rules(loaded, false) == Rules(base, false) && Rules(loaded, true) == Rules(base, true);
    ExecFolds(loaded, InstallCmds(pl, o), v6, t);
    ExecFolds(base, InstallCmds(pl, o), v6, t);
    SameFold(loaded, base, Table(base, v6, t), InstallCmds(pl, o), v6, t);
  }

  lemma {:induction false} SameFold(x: Kernel, y: Kernel, rs: seq<Route>, cs: seq<Cmd>, v6: bool, t: int)
    requires SameHost(x, y)
    ensures TableFold(x, rs, cs, v6, t) == TableFold(y, rs, cs, v6, t)
  {
    if cs != [] {
      SameFold(x, y, rs, cs[..|cs| - 1], v6, t);
      HostOnly(y, x, TableFold(y, rs, cs[..|cs| - 1], v6, t), cs[|cs| - 1], v6, t);
    }
  }

  /** A successful `Apply` leaves the plan's rules between the others and its routes in its tables. */
  lemma AppliedState(pl: Plan, o: Options, base: Kernel, v6: bool, t: int)
    requires CleanBase(pl, o, base) && ApplyResult(pl, o, base).ok
    ensures Rules(NftKernel(pl, o, base), v6) == PlanRules(pl, o, base, v6)
    ensures Table(NftKernel(pl, o, base), v6, t) == Table(ExecAll(base, InstallCmds(pl, o)), v6, t)
    ensures LinksUp(pl, base)
  {
    var loaded := Exec(base, LoadCmd(pl)).k;
    CleanIsFree(pl, o, base);
    ApplySucceedsIff(pl, o, base);
    ClearedStart(pl, o, base);
    LoadedAlike(pl, o, base, loaded, v6, t);
    InstalledRules(pl, o, loaded, v6);
  }

  function NftMark(pl: Plan, k: Packet, ct: Word): Word {
    Nftables.RunChain(Nftables.Chain(pl), DeclaredSets(pl), k, Marks(k.mark, ct)).marks.mark
  }

  function IptMark(pl: Plan, s86: Word, k: Packet, ct: Word): Word {
    Iptables.Plane(pl, s86, DeclaredSets(pl), k, Marks(k.mark, ct)).mark
  }

  /**
   The two planes agree: once `Apply` reports success, on every packet of a fresh flow the nft
   plane consults exactly the specified tables, and the iptables plane those of the plan whose
   blank source entries drop their condition, which is the plan itself when it has none.
   Where both choose the same table they send the packet the same way, whatever interfaces
   stay up.
   */
  lemma PlanesAgree(pl: Plan, o: Options, base: Kernel, s86: Word, k: Packet, ct: Word)
    requires GoodPlan(pl) && NoDomains(pl) && Iptables.NoPluses(pl) && Installable(pl, o, base)
    requires ApplyResult(pl, o, base).ok
    requires Fresh(pl, k.mark) && Fresh(pl, ct) && (s86 == {} || k.mark != s86)
    ensures var a, loose := DstAddr(k), Iptables.LoosePlan(pl);
      && Consulted(Rules(NftKernel(pl, o, base), k.v6), a, NftMark(pl, k, ct)) == SpecTables(pl, o, base, k)
      && Consulted(Rules(IptKernel(pl, o, base), k.v6), a, IptMark(pl, s86, k, ct)) == SpecTables(loose, o, base, k)
      && (ChosenTable(pl, k) == ChosenTable(loose, k) ==>
            forall up :: Lookup(NftKernel(pl, o, base), a, NftMark(pl, k, ct), up)
                      == Lookup(IptKernel(pl, o, base), a, IptMark(pl, s86, k, ct), up))
    ensures Iptables.CleanSources(pl) ==> Iptables.LoosePlan(pl) == pl
  {
    var a := DstAddr(k);
    NftConsults(pl, o, base, k, ct);
    IptConsults(pl, o, base, s86, k, ct);
    if Iptables.CleanSources(pl) { Iptables.CleanIsLoose(pl); }
    if ChosenTable(pl, k) == ChosenTable(Iptables.LoosePlan(pl), k) {
      SameSpec(pl, o, base, k);
      LookupSame(pl, o, base, k, NftMark(pl, k, ct), IptMark(pl, s86, k, ct));
    }
  }

  lemma SameSpec(pl: Plan, o: Options, base: Kernel, k: Packet)
    requires ChosenTable(pl, k) == ChosenTable(Iptables.LoosePlan(pl), k)
    ensures SpecTables(pl, o, base, k) == SpecTables(Iptables.LoosePlan(pl), o, base, k)
  {
    Iptables.LooseHasV6(pl);
  }

  lemma NftConsults(pl: Plan, o: Options, base: Kernel, k: Packet, ct: Word)
    requires GoodPlan(pl) && NoDomains(pl) && Installable(pl, o, base) && ApplyResult(pl, o, base).ok
    requires Fresh(pl, k.mark) && Fresh(pl, ct)
    ensures Consulted(Rules(NftKernel(pl, o, base), k.v6), DstAddr(k), NftMark(pl, k, ct)) == SpecTables(pl, o, base, k)
  {
    Nftables.FreshChain(pl, k, ct);
    AppliedState(pl, o, base, k.v6, 0);
    DecisionTables(pl, o, base, NftKernel(pl, o, base), k, NftMark(pl, k, ct));
  }

  /** The iptables plane consults what the loosened plan specifies. */
  lemma IptConsults(pl: Plan, o: Options, base: Kernel, s86: Word, k: Packet, ct: Word)
    requires GoodPlan(pl) && NoDomains(pl) && Iptables.NoPluses(pl) && Installable(pl, o, base)
    requires Fresh(pl, k.mark) && Fresh(pl, ct) && (s86 == {} || k.mark != s86)
    ensures Consulted(Rules(IptKernel(pl, o, base), k.v6), DstAddr(k), IptMark(pl, s86, k, ct)) ==
      SpecTables(Iptables.LoosePlan(pl), o, base, k)
  {
    Iptables.FreshPlane(pl, s86, k, ct);
    InstalledRules(pl, o, base, k.v6);
    LooseShape(pl, o, base, k.v6);
    DecisionTables(Iptables.LoosePlan(pl), o, base, IptKernel(pl, o, base), k, IptMark(pl, s86, k, ct));
  }

  /** Loosening changes no egress, no rule and no route. */
  lemma LooseShape(pl: Plan, o: Options, base: Kernel, v6: bool)
    requires GoodShape(pl)
    ensures var loose := Iptables.LoosePlan(pl);
      GoodShape(loose) && HasV6(loose) == HasV6(pl) && PlanRules(loose, o, base, v6) == PlanRules(pl, o, base, v6)
  {
    var loose := Iptables.LoosePlan(pl);
    Iptables.LooseHasV6(pl);
    forall z | z in loose.zones ensures exists e :: e in loose.egresses && e.tag == z.tag && e.mark == z.mark {
      var i :| 0 <= i < |loose.zones| && loose.zones[i] == z;
      assert pl.zones[i] in pl.zones;
    }
    assert NonWan(loose) == NonWan(pl);
  }

  lemma LookupSame(pl: Plan, o: Options, base: Kernel, k: Packet, m: Word, w: Word)
    requires Installable(pl, o, base) && ApplyResult(pl, o, base).ok
    requires Consulted(Rules(NftKernel(pl, o, base), k.v6), DstAddr(k), m) ==
      Consulted(Rules(IptKernel(pl, o, base), k.v6), DstAddr(k), w)
    ensures forall up :: Lookup(NftKernel(pl, o, base), DstAddr(k), m, up)
                      == Lookup(IptKernel(pl, o, base), DstAddr(k), w, up)
  {
    var a, ts := DstAddr(k), Consulted(Rules(NftKernel(pl, o, base), k.v6), DstAddr(k), m);
    forall t ensures Table(NftKernel(pl, o, base), k.v6, t) == Table(IptKernel(pl, o, base), k.v6, t) {
      AppliedState(pl, o, base, k.v6, t);
      InstalledTables(pl, o, base, k.v6, t);
    }
    forall up ensures Lookup(NftKernel(pl, o, base), a, m, up) == Lookup(IptKernel(pl, o, base), a, w, up) {
      ResolveSame(NftKernel(pl, o, base), IptKernel(pl, o, base), ts, a, up);
    }
  }

  // ---- a stock router ----

  const LOCAL_TABLE := 255

  /** The rules every Linux namespace starts with. */
  const STOCK_RULES := [IpRule(0, All, LOCAL_TABLE), IpRule(32766, All, MAIN_TABLE), IpRule(32767, All, 253)]

  /** They are a clean start state for every plan that stays below the main lookup. */
  lemma StockRulesClean(pl: Plan, o: Options, base: Kernel, a: Addr, m: Word)
    requires base.rules4 == STOCK_RULES && base.rules6 == STOCK_RULES
    requires 3 < o.rulePref && o.rulePref + |NonWan(pl)| <= 32766
    ensures CleanRules(pl, o, base, a.v6) && IgnoresOwned(Rules(base, a.v6), pl.mask)
    ensures Early(o, base, a, m) == [LOCAL_TABLE] && Late(o, base, a, m) == [MAIN_TABLE, 253]
  {
    var rs := STOCK_RULES;
    OrderedIsClean(pl, o, base, a.v6);
    assert Cut(rs, FirstPref(o, a.v6)) == 1 by {
      assert Cut(rs[1..], FirstPref(o, a.v6)) == 0;
    }
    assert InFront(o, base, a.v6) == [rs[0]] && Behind(o, base, a.v6) == [rs[1], rs[2]];
    ConsultAny(rs[0], [], a, m);
    ConsultAny(rs[1], [rs[2]], a, m);
    ConsultAny(rs[2], [], a, m);
  }

  lemma ConsultAny(r: IpRule, rest: seq<IpRule>, a: Addr, m: Word)
    requires r.sel == All
    ensures Consulted([r] + rest, a, m) == [r.table] + Consulted(rest, a, m)
  {
    assert ([r] + rest)[1..] == rest;
  }
}
