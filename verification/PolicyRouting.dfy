/**
 The kernel's policy routing: `ip rule` and `ip route` state, the commands `RenderIP`,
 `ipTeardown` (`internal/pbr/render.go`) and `RenderIPScript` (`internal/pbr/render_ipset.go`)
 issue, what each command does, and how a marked packet is looked up.
 */
module PolicyRouting {
  import opened Sorting
  import opened Cidr
  import opened Profiles
  import opened Compile
  import opened Datapath
  import Nftables

  const MAIN_TABLE := 254
  const FAIL_CLOSED_METRIC := 1000

  datatype Selector = All | To(prefix: Prefix) | FwMark(value: Word, mask: Word)
  datatype IpRule = IpRule(prio: int, sel: Selector, table: int)
  datatype Hop = Dev(iface: string) | Drop
  datatype Route = Route(dst: Prefix, metric: nat, hop: Hop)

  /**
   Kernel state. `metric4` and `metric6` are the metrics the kernel gives a route added
   without one; `chains` holds the nft tables by name, `links` the interfaces that are up.
   */
  datatype Kernel = Kernel(
    rules4: seq<IpRule>, rules6: seq<IpRule>, routes: map<(bool, int), seq<Route>>,
    chains: map<string, seq<Nftables.NftRule>>, metric4: nat, metric6: nat, links: set<string>)

  datatype Cmd =
    | RuleAdd(v6: bool, rule: IpRule)
    | RuleDel(v6: bool, rule: IpRule)
    | RouteReplace(v6: bool, table: int, metric: Option<nat>, hop: Hop)
    | RouteAdd(v6: bool, table: int, metric: Option<nat>, hop: Hop)
    | RouteFlush(v6: bool, table: int)
    | NftLoad(name: string, chain: seq<Nftables.NftRule>)
    | NftDelete(name: string)

  function Rules(k: Kernel, v6: bool): seq<IpRule> { if v6 then k.rules6 else k.rules4 }

  function WithRules(k: Kernel, v6: bool, rs: seq<IpRule>): Kernel {
    if v6 then k.(rules6 := rs) else k.(rules4 := rs)
  }

  function Table(k: Kernel, v6: bool, t: int): seq<Route> {
    if (v6, t) in k.routes then k.routes[(v6, t)] else []
  }

  // ---- commands ----

  /** A new rule goes behind every rule of the same or a smaller priority number. */
  function InsertRule(rs: seq<IpRule>, r: IpRule): seq<IpRule> {
    if rs == [] then [r]
    else if rs[0].prio > r.prio then [r] + rs
    else [rs[0]] + InsertRule(rs[1..], r)
  }

  function RemoveRule(rs: seq<IpRule>, r: IpRule): seq<IpRule> {
    if rs == [] then [] else if rs[0] == r then rs[1..] else [rs[0]] + RemoveRule(rs[1..], r)
  }

  function DefaultRoute(k: Kernel, v6: bool, metric: Option<nat>, hop: Hop): Route {
    Route(Prefix(v6, 0, 0), if metric.Some? then metric.value else if v6 then k.metric6 else k.metric4, hop)
  }

  predicate SameKey(a: Route, b: Route) { a.dst == b.dst && a.metric == b.metric }

  predicate HasKey(rs: seq<Route>, r: Route) { exists x :: x in rs && SameKey(x, r) }

  function PutRoute(rs: seq<Route>, r: Route): seq<Route> {
    if rs == [] then [r] else if SameKey(rs[0], r) then [r] + rs[1..] else [rs[0]] + PutRoute(rs[1..], r)
  }

  datatype Ran = Ran(k: Kernel, ok: bool)

  /** A device route is refused while its interface is missing or down. */
  predicate HopOk(k: Kernel, hop: Hop) { hop.Dev? ==> hop.iface in k.links }

  /** One command: the next state and whether it reported success. */
  function Exec(k: Kernel, c: Cmd): Ran {
    match c
    case RuleAdd(v6, r) =>
      if r in Rules(k, v6) then Ran(k, false) else Ran(WithRules(k, v6, InsertRule(Rules(k, v6), r)), true)
    case RuleDel(v6, r) =>
      if r in Rules(k, v6) then Ran(WithRules(k, v6, RemoveRule(Rules(k, v6), r)), true) else Ran(k, false)
    case RouteReplace(v6, t, m, hop) =>
      if !HopOk(k, hop) then Ran(k, false)
      else Ran(k.(routes := k.routes[(v6, t) := PutRoute(Table(k, v6, t), DefaultRoute(k, v6, m, hop))]), true)
    case RouteAdd(v6, t, m, hop) =>
      var r := DefaultRoute(k, v6, m, hop);
      if !HopOk(k, hop) || HasKey(Table(k, v6, t), r) then Ran(k, false)
      else Ran(k.(routes := k.routes[(v6, t) := Table(k, v6, t) + [r]]), true)
    case RouteFlush(v6, t) => Ran(k.(routes := k.routes - {(v6, t)}), true)
    case NftLoad(name, chain) =>
      if Nftables.Loads(chain) then Ran(k.(chains := k.chains[name := chain]), true) else Ran(k, false)
    case NftDelete(name) => Ran(k.(chains := k.chains - {name}), name in k.chains)
  }

  /** A script that ignores errors. */
  function ExecAll(k: Kernel, cs: seq<Cmd>): Kernel {
    if cs == [] then k else Exec(ExecAll(k, cs[..|cs| - 1]), cs[|cs| - 1]).k
  }

  /** Every command of a run reported success. */
  predicate AllOk(k: Kernel, cs: seq<Cmd>) {
    cs == [] || (AllOk(k, cs[..|cs| - 1]) && Exec(ExecAll(k, cs[..|cs| - 1]), cs[|cs| - 1]).ok)
  }

  lemma {:induction false} ExecConcat(k: Kernel, a: seq<Cmd>, b: seq<Cmd>)
    ensures ExecAll(k, a + b) == ExecAll(ExecAll(k, a), b)
    ensures AllOk(k, a + b) <==> AllOk(k, a) && AllOk(ExecAll(k, a), b)
  {
    if b == [] {
      assert a + b == a;
    } else {
      var n := |b| - 1;
      assert (a + b)[..|a + b| - 1] == a + b[..n];
      ExecConcat(k, a, b[..n]);
    }
  }

  // ---- rendering ----

  /** The private ranges of section 3 of RFC 1918. */
  const PRIVATE_V4 := [
    Prefix(false, 10 * 0x1000000, 8),
    Prefix(false, 172 * 0x1000000 + 16 * 0x10000, 12),
    Prefix(false, 192 * 0x1000000 + 168 * 0x10000, 16)]

  /**
   Unique local addresses fc00::/7 (section 3.1 of RFC 4193) and link-local ones fe80::/10
   (section 2.5.6 of RFC 4291), each written as its leading bits times its block size.
   */
  const PRIVATE_V6 := [Prefix(true, 0x7e * Pow2(121), 7), Prefix(true, 0x3fa * Pow2(118), 10)]

  function PrivateRanges(v6: bool): seq<Prefix> { if v6 then PRIVATE_V6 else PRIVATE_V4 }

  /** `excludesFor`. */
  function Excludes(pref: int, v6: bool): seq<IpRule> {
    var ps := PrivateRanges(v6);
    seq(|ps|, j requires 0 <= j < |ps| => IpRule(pref - |ps| + j, To(ps[j]), MAIN_TABLE))
  }

  function NonWanOf(es: seq<Egress>): seq<Egress> {
    if es == [] then []
    else NonWanOf(es[..|es| - 1]) + (if es[|es| - 1].kind != WAN then [es[|es| - 1]] else [])
  }

  function WordValue(w: Word, n: nat): nat {
    if n == 0 then 0 else WordValue(w, n - 1) + (if n - 1 in w then Pow2(n - 1) else 0)
  }

  predicate MarkLeq(a: Egress, b: Egress) { WordValue(a.mark, 32) <= WordValue(b.mark, 32) }

  /** `nonWanEgresses`: in mark order. */
  function NonWan(pl: Plan): seq<Egress> { Sort(NonWanOf(pl.egresses), MarkLeq) }

  function FwRule(mask: Word, pref: int, i: nat, e: Egress): IpRule {
    IpRule(pref + i, FwMark(e.mark, mask), e.table)
  }

  function Adds(v6: bool, rs: seq<IpRule>): seq<Cmd> {
    seq(|rs|, i requires 0 <= i < |rs| => RuleAdd(v6, rs[i]))
  }

  function If6(v6: bool, c: Cmd): seq<Cmd> { if v6 then [c] else [] }

  /** The default routes of one egress table. */
  function RouteCmds(six: bool, e: Egress): seq<Cmd> {
    match e.kind
    case WAN => []
    case Tunnel =>
      [RouteReplace(false, e.table, None, Dev(e.iface))] + If6(six, RouteReplace(true, e.table, None, Dev(e.iface))) +
        (if e.failClosed then
           [RouteReplace(false, e.table, Some(FAIL_CLOSED_METRIC), Drop)] +
             If6(six, RouteReplace(true, e.table, Some(FAIL_CLOSED_METRIC), Drop))
         else [])
    case Blackhole => [RouteReplace(false, e.table, None, Drop)] + If6(six, RouteReplace(true, e.table, None, Drop))
  }

  /** One egress's lines of `RenderIP`. */
  function EgressCmds(mask: Word, pref: int, six: bool, i: nat, e: Egress): seq<Cmd> {
    var r := FwRule(mask, pref, i, e);
    [RuleAdd(false, r)] + If6(six, RuleAdd(true, r)) + RouteCmds(six, e)
  }

  lemma RoutesOnly(six: bool, e: Egress)
    ensures forall c :: c in RouteCmds(six, e) ==> c.RouteReplace?
  {}

  function EachEgress(mask: Word, pref: int, six: bool, es: seq<Egress>): seq<Cmd> {
    if es == [] then []
    else EachEgress(mask, pref, six, es[..|es| - 1]) + EgressCmds(mask, pref, six, |es| - 1, es[|es| - 1])
  }

  /** `RenderIP`. */
  function InstallCmds(pl: Plan, o: Options): seq<Cmd> {
    var six := HasV6(pl);
    Adds(false, Excludes(o.rulePref, false)) + (if six then Adds(true, Excludes(o.rulePref, true)) else []) +
      EachEgress(pl.mask, o.rulePref, six, NonWan(pl))
  }

  method RenderIP(pl: Plan, o: Options) returns (cmds: seq<Cmd>)
    ensures cmds == InstallCmds(pl, o)
  {
    var six := HasV6Scan(pl);
    cmds := Adds(false, Excludes(o.rulePref, false));
    if six {
      cmds := cmds + Adds(true, Excludes(o.rulePref, true));
    }
    var each := RenderEgresses(pl.mask, o.rulePref, six, NonWan(pl));
    cmds := cmds + each;
  }

  /** Its loop over the egresses. */
  method RenderEgresses(mask: Word, pref: int, six: bool, es: seq<Egress>) returns (each: seq<Cmd>)
    ensures each == EachEgress(mask, pref, six, es)
  {
    each := [];
    for i := 0 to |es|
      invariant each == EachEgress(mask, pref, six, es[..i])
    {
      assert es[..i + 1][..i] == es[..i];
      each := each + EgressCmds(mask, pref, six, i, es[i]);
    }
    assert es[..|es|] == es;
  }

  function Reasserts(v6: bool, rs: seq<IpRule>): seq<Cmd> {
    if rs == [] then []
    else Reasserts(v6, rs[..|rs| - 1]) + [RuleDel(v6, rs[|rs| - 1]), RuleAdd(v6, rs[|rs| - 1])]
  }

  /** One egress's lines of `RenderIPScript` in one family: the tunnel default is only seeded. */
  function SeedCmds(mask: Word, pref: int, v6: bool, i: nat, e: Egress): seq<Cmd> {
    var r := FwRule(mask, pref, i, e);
    [RuleDel(v6, r), RuleAdd(v6, r)] +
      match e.kind
      case WAN => []
      case Tunnel =>
        [RouteAdd(v6, e.table, None, Dev(e.iface))] +
          (if e.failClosed then [RouteReplace(v6, e.table, Some(FAIL_CLOSED_METRIC), Drop)] else [])
      case Blackhole => [RouteReplace(v6, e.table, None, Drop)]
  }

  function EachSeed(mask: Word, pref: int, v6: bool, es: seq<Egress>): seq<Cmd> {
    if es == [] then []
    else EachSeed(mask, pref, v6, es[..|es| - 1]) + SeedCmds(mask, pref, v6, |es| - 1, es[|es| - 1])
  }

  function FamilyScript(pl: Plan, o: Options, v6: bool): seq<Cmd> {
    Reasserts(v6, Excludes(o.rulePref, v6)) + EachSeed(pl.mask, o.rulePref, v6, NonWan(pl))
  }

  /** `RenderIPScript`. */
  function ScriptCmds(pl: Plan, o: Options): seq<Cmd> {
    FamilyScript(pl, o, false) + (if HasV6(pl) then FamilyScript(pl, o, true) else [])
  }

  method RenderIPScript(pl: Plan, o: Options) returns (cmds: seq<Cmd>)
    ensures cmds == ScriptCmds(pl, o)
  {
    cmds := EmitFamily(pl, o, false);
    var six := HasV6Scan(pl);
    if six {
      var more := EmitFamily(pl, o, true);
      cmds := cmds + more;
    }
  }

  method EmitFamily(pl: Plan, o: Options, v6: bool) returns (cmds: seq<Cmd>)
    ensures cmds == FamilyScript(pl, o, v6)
  {
    var ex, es := Excludes(o.rulePref, v6), NonWan(pl);
    var head, each := [], [];
    for i := 0 to |ex|
      invariant head == Reasserts(v6, ex[..i])
    {
      assert ex[..i + 1][..i] == ex[..i];
      head := head + [RuleDel(v6, ex[i]), RuleAdd(v6, ex[i])];
    }
    assert ex[..|ex|] == ex;
    for i := 0 to |es|
      invariant each == EachSeed(pl.mask, o.rulePref, v6, es[..i])
    {
      assert es[..i + 1][..i] == es[..i];
      each := each + SeedCmds(pl.mask, o.rulePref, v6, i, es[i]);
    }
    assert es[..|es|] == es;
    cmds := head + each;
  }

  function EgressTeardown(mask: Word, pref: int, six: bool, i: nat, e: Egress): seq<Cmd> {
    var r := FwRule(mask, pref, i, e);
    [RuleDel(false, r)] + If6(six, RuleDel(true, r)) + [RouteFlush(false, e.table)] +
        If6(six, RouteFlush(true, e.table))
  }

  function EachTeardown(mask: Word, pref: int, six: bool, es: seq<Egress>): seq<Cmd> {
    if es == [] then []
    else EachTeardown(mask, pref, six, es[..|es| - 1]) + EgressTeardown(mask, pref, six, |es| - 1, es[|es| - 1])
  }

  function Dels(v6: bool, rs: seq<IpRule>): seq<Cmd> {
    seq(|rs|, i requires 0 <= i < |rs| => RuleDel(v6, rs[i]))
  }

  /** `ipTeardown`. */
  function TeardownCmds(pl: Plan, o: Options): seq<Cmd> {
    var six := HasV6(pl);
    EachTeardown(pl.mask, o.rulePref, six, NonWan(pl)) +
      Dels(false, Excludes(o.rulePref, false)) + (if six then Dels(true, Excludes(o.rulePref, true)) else [])
  }

  method IpTeardown(pl: Plan, o: Options) returns (cmds: seq<Cmd>)
    ensures cmds == TeardownCmds(pl, o)
  {
    var six := HasV6Scan(pl);
    var es := NonWan(pl);
    cmds := [];
    for i := 0 to |es|
      invariant cmds == EachTeardown(pl.mask, o.rulePref, six, es[..i])
    {
      assert es[..i + 1][..i] == es[..i];
      cmds := cmds + EgressTeardown(pl.mask, o.rulePref, six, i, es[i]);
    }
    assert es[..|es|] == es;
    cmds := cmds + Dels(false, Excludes(o.rulePref, false));
    if six {
      cmds := cmds + Dels(true, Excludes(o.rulePref, true));
    }
  }

  // ---- lookup ----

  predicate RuleMatches(r: IpRule, a: Addr, mark: Word) {
    match r.sel
    case All => true
    case To(p) => Contains(p, a)
    case FwMark(v, m) => mark * m == v
  }

  /** The tables consulted for a packet, in rule order. */
  function Consulted(rs: seq<IpRule>, a: Addr, mark: Word): seq<int> {
    if rs == [] then []
    else (if RuleMatches(rs[0], a, mark) then [rs[0].table] else []) + Consulted(rs[1..], a, mark)
  }

  lemma {:induction false} ConsultedConcat(x: seq<IpRule>, y: seq<IpRule>, a: Addr, mark: Word)
    ensures Consulted(x + y, a, mark) == Consulted(x, a, mark) + Consulted(y, a, mark)
  {
    if x == [] {
      assert x + y == y;
    } else {
      assert (x + y)[1..] == x[1..] + y;
      ConsultedConcat(x[1..], y, a, mark);
    }
  }

  /** A route that can carry the packet while the interfaces in `up` are up. */
  predicate Usable(r: Route, a: Addr, up: set<string>) {
    Contains(r.dst, a) && (r.hop.Dev? ==> r.hop.iface in up)
  }

  predicate Better(r: Route, s: Route) {
    r.dst.bits > s.dst.bits || (r.dst.bits == s.dst.bits && r.metric < s.metric)
  }

  /** The longest prefix, then the smallest metric, then the first. */
  function Best(rs: seq<Route>, a: Addr, up: set<string>): Option<Route> {
    if rs == [] then None
    else
      var rest := Best(rs[..|rs| - 1], a, up);
      var r := rs[|rs| - 1];
      if Usable(r, a, up) && (rest.None? || Better(r, rest.value)) then Some(r) else rest
  }

  datatype Fate = Routed(table: int, hop: Hop) | Unreachable

  /** The first consulted table with a usable route decides. */
  function Resolve(k: Kernel, tables: seq<int>, a: Addr, up: set<string>): Fate {
    if tables == [] then Unreachable
    else
      match Best(Table(k, a.v6, tables[0]), a, up)
      case Some(r) => Routed(tables[0], r.hop)
      case None => Resolve(k, tables[1..], a, up)
  }

  function Lookup(k: Kernel, a: Addr, mark: Word, up: set<string>): Fate {
    Resolve(k, Consulted(Rules(k, a.v6), a, mark), a, up)
  }

  // ---- the installed state ----

  /** How many leading rules have a smaller priority number than `p`. */
  function Cut(rs: seq<IpRule>, p: int): (n: nat)
    ensures n <= |rs|
  {
    if rs == [] || rs[0].prio >= p then 0 else 1 + Cut(rs[1..], p)
  }

  /** The first priority number of the plan in one family. */
  function FirstPref(o: Options, v6: bool): int { o.rulePref - |PrivateRanges(v6)| }

  /** The rules of other software in front of the plan's, such as the lookup of the local table. */
  function InFront(o: Options, k: Kernel, v6: bool): seq<IpRule> { Rules(k, v6)[..Cut(Rules(k, v6), FirstPref(o, v6))] }

  /** And those behind it. */
  function Behind(o: Options, k: Kernel, v6: bool): seq<IpRule> { Rules(k, v6)[Cut(Rules(k, v6), FirstPref(o, v6))..] }

  /** No other software's rule sits between the plan's priority numbers. */
  ghost predicate CleanRules(pl: Plan, o: Options, k: Kernel, v6: bool) {
    forall r :: r in Behind(o, k, v6) ==> r.prio >= o.rulePref + |NonWan(pl)|
  }

  /** A start state the plan can be installed in: its priority numbers unused, its tables empty. */
  ghost predicate CleanBase(pl: Plan, o: Options, k: Kernel) {
    && CleanRules(pl, o, k, false) && CleanRules(pl, o, k, true)
    && (forall e, v6 :: e in NonWan(pl) ==> (v6, e.table) !in k.routes)
  }

  lemma {:induction false} CutLow(rs: seq<IpRule>, p: int)
    ensures forall r :: r in rs[..Cut(rs, p)] ==> r.prio < p
    ensures Cut(rs, p) < |rs| ==> rs[Cut(rs, p)].prio >= p
  {
    if rs != [] && rs[0].prio < p {
      CutLow(rs[1..], p);
      assert rs[..Cut(rs, p)] == [rs[0]] + rs[1..][..Cut(rs[1..], p)];
    }
  }

  /** The kernel keeps rules in priority order, so a start state is clean when no rule has one of the plan's numbers. */
  lemma OrderedIsClean(pl: Plan, o: Options, k: Kernel, v6: bool)
    requires forall i, j :: 0 <= i < j < |Rules(k, v6)| ==> Rules(k, v6)[i].prio <= Rules(k, v6)[j].prio
    requires forall r :: r in Rules(k, v6) ==> r.prio < FirstPref(o, v6) || r.prio >= o.rulePref + |NonWan(pl)|
    ensures CleanRules(pl, o, k, v6)
    ensures forall r :: r in Rules(k, v6) ==> (r in InFront(o, k, v6) <==> r.prio < FirstPref(o, v6))
  {
    var rs, n := Rules(k, v6), Cut(Rules(k, v6), FirstPref(o, v6));
    CutLow(rs, FirstPref(o, v6));
    OrderedSplit(rs, n, FirstPref(o, v6));
  }

  lemma OrderedSplit(rs: seq<IpRule>, n: nat, p: int)
    requires n <= |rs| && forall i, j :: 0 <= i < j < |rs| ==> rs[i].prio <= rs[j].prio
    requires (forall r :: r in rs[..n] ==> r.prio < p) && (n < |rs| ==> rs[n].prio >= p)
    ensures forall r :: r in rs[n..] ==> r.prio >= p && r in rs
    ensures forall r :: r in rs ==> (r in rs[..n] <==> r.prio < p)
  {
    forall r | r in rs[n..] ensures r.prio >= p && r in rs {
      var j :| 0 <= j < |rs| - n && rs[n..][j] == r;
      assert rs[n + j] == r;
    }
    assert rs == rs[..n] + rs[n..];
  }

  /** All rule priorities of one family rise strictly. */
  lemma PrioritiesDistinct(pl: Plan, o: Options, v6: bool)
    ensures var rs := OwnRules(pl, o, v6); forall i, j :: 0 <= i < j < |rs| ==> rs[i].prio < rs[j].prio
    ensures forall r :: r in OwnRules(pl, o, v6) ==> FirstPref(o, v6) <= r.prio < o.rulePref + |NonWan(pl)|
  {
    var rs := OwnRules(pl, o, v6);
    forall i | 0 <= i < |rs| ensures rs[i].prio == FirstPref(o, v6) + i {}
  }

  ghost predicate TablesDistinct(es: seq<Egress>) {
    forall i, j :: 0 <= i < j < |es| ==> es[i].table != es[j].table
  }

  lemma {:induction false} InsertBetween(x: seq<IpRule>, y: seq<IpRule>, r: IpRule)
    requires (forall a :: a in x ==> a.prio <= r.prio) && (forall b :: b in y ==> b.prio > r.prio)
    ensures InsertRule(x + y, r) == x + [r] + y
  {
    if x == [] {
      assert x + y == y && x + [r] + y == [r] + y;
      InsertFirst(y, r);
    } else {
      forall a | a in x[1..] ensures a in x {}
      InsertBetween(x[1..], y, r);
      assert x[0] in x;
      InsertLater(x[0], x[1..] + y, r);
      ConsMiddle(x, y, r);
    }
  }

  lemma InsertFirst(y: seq<IpRule>, r: IpRule)
    requires forall b :: b in y ==> b.prio > r.prio
    ensures InsertRule(y, r) == [r] + y
  {
    assert y == [] || y[0] in y;
  }

  lemma InsertLater(h: IpRule, t: seq<IpRule>, r: IpRule)
    requires h.prio <= r.prio
    ensures InsertRule([h] + t, r) == [h] + InsertRule(t, r)
  {
    assert ([h] + t)[1..] == t;
  }

  lemma ConsMiddle(x: seq<IpRule>, y: seq<IpRule>, r: IpRule)
    requires x != []
    ensures x + y == [x[0]] + (x[1..] + y) && [x[0]] + (x[1..] + [r] + y) == x + [r] + y
  {
    assert x == [x[0]] + x[1..];
  }

  // ---- one family at a time ----

  /** What a command does to one family's rules. */
  function RuleEffect(rs: seq<IpRule>, c: Cmd, v6: bool): seq<IpRule> {
    match c
    case RuleAdd(f, r) => if f == v6 && r !in rs then InsertRule(rs, r) else rs
    case RuleDel(f, r) => if f == v6 && r in rs then RemoveRule(rs, r) else rs
    case _ => rs
  }

  function RuleFold(rs: seq<IpRule>, cs: seq<Cmd>, v6: bool): seq<IpRule> {
    if cs == [] then rs else RuleEffect(RuleFold(rs, cs[..|cs| - 1], v6), cs[|cs| - 1], v6)
  }

  /** What a command does to one table of one family. */
  function TableEffect(k: Kernel, rs: seq<Route>, c: Cmd, v6: bool, t: int): seq<Route> {
    match c
    case RouteReplace(f, u, m, hop) =>
      if f == v6 && u == t && HopOk(k, hop) then PutRoute(rs, DefaultRoute(k, f, m, hop)) else rs
    case RouteAdd(f, u, m, hop) =>
      var r := DefaultRoute(k, f, m, hop);
      if f == v6 && u == t && HopOk(k, hop) && !HasKey(rs, r) then rs + [r] else rs
    case RouteFlush(f, u) => if f == v6 && u == t then [] else rs
    case _ => rs
  }

  function TableFold(k: Kernel, rs: seq<Route>, cs: seq<Cmd>, v6: bool, t: int): seq<Route> {
    if cs == [] then rs else TableEffect(k, TableFold(k, rs, cs[..|cs| - 1], v6, t), cs[|cs| - 1], v6, t)
  }

  lemma ExecEffect(k: Kernel, c: Cmd, v6: bool, t: int)
    ensures var n := Exec(k, c).k;
      && Rules(n, v6) == RuleEffect(Rules(k, v6), c, v6)
      && Table(n, v6, t) == TableEffect(k, Table(k, v6, t), c, v6, t)
      && SameHost(n, k)
  {}

  /** What no command changes. */
  predicate SameHost(n: Kernel, k: Kernel) { n.metric4 == k.metric4 && n.metric6 == k.metric6 && n.links == k.links }

  lemma HostOnly(k: Kernel, n: Kernel, rs: seq<Route>, c: Cmd, v6: bool, t: int)
    requires SameHost(n, k)
    ensures TableEffect(n, rs, c, v6, t) == TableEffect(k, rs, c, v6, t)
  {}

  lemma {:induction false} ExecFolds(k: Kernel, cs: seq<Cmd>, v6: bool, t: int)
    ensures var n := ExecAll(k, cs);
      && Rules(n, v6) == RuleFold(Rules(k, v6), cs, v6)
      && Table(n, v6, t) == TableFold(k, Table(k, v6, t), cs, v6, t)
      && SameHost(n, k)
  {
    if cs != [] {
      var m := |cs| - 1;
      var before := ExecAll(k, cs[..m]);
      ExecFolds(k, cs[..m], v6, t);
      ExecEffect(before, cs[m], v6, t);
      HostOnly(k, before, Table(before, v6, t), cs[m], v6, t);
    }
  }

  lemma {:induction false} RuleFoldConcat(rs: seq<IpRule>, a: seq<Cmd>, b: seq<Cmd>, v6: bool)
    ensures RuleFold(rs, a + b, v6) == RuleFold(RuleFold(rs, a, v6), b, v6)
  {
    if b == [] {
      assert a + b == a;
    } else {
      assert (a + b)[..|a + b| - 1] == a + b[..|b| - 1];
      RuleFoldConcat(rs, a, b[..|b| - 1], v6);
    }
  }

  lemma {:induction false} TableFoldConcat(k: Kernel, rs: seq<Route>, a: seq<Cmd>, b: seq<Cmd>, v6: bool, t: int)
    ensures TableFold(k, rs, a + b, v6, t) == TableFold(k, TableFold(k, rs, a, v6, t), b, v6, t)
  {
    if b == [] {
      assert a + b == a;
    } else {
      assert (a + b)[..|a + b| - 1] == a + b[..|b| - 1];
      TableFoldConcat(k, rs, a, b[..|b| - 1], v6, t);
    }
  }

  /** A command that leaves one family's rules alone. */
  predicate RuleNeutral(c: Cmd, v6: bool) { (c.RuleAdd? || c.RuleDel?) ==> c.v6 != v6 }

  lemma {:induction false} NeutralFold(rs: seq<IpRule>, cs: seq<Cmd>, v6: bool)
    requires forall c :: c in cs ==> RuleNeutral(c, v6)
    ensures RuleFold(rs, cs, v6) == rs
  {
    if cs != [] {
      assert cs[|cs| - 1] in cs;
      NeutralFold(rs, cs[..|cs| - 1], v6);
    }
  }

  predicate TableNeutral(c: Cmd, v6: bool, t: int) {
    (c.RouteReplace? || c.RouteAdd? || c.RouteFlush?) ==> c.v6 != v6 || c.table != t
  }

  lemma {:induction false} NeutralTable(k: Kernel, rs: seq<Route>, cs: seq<Cmd>, v6: bool, t: int)
    requires forall c :: c in cs ==> TableNeutral(c, v6, t)
    ensures TableFold(k, rs, cs, v6, t) == rs
  {
    if cs != [] {
      assert cs[|cs| - 1] in cs;
      NeutralTable(k, rs, cs[..|cs| - 1], v6, t);
    }
  }

  function FwRules(mask: Word, pref: int, es: seq<Egress>): seq<IpRule> {
    seq(|es|, i requires 0 <= i < |es| => FwRule(mask, pref, i, es[i]))
  }

  /** The plan's own rules of one family, in priority order. */
  function OwnRules(pl: Plan, o: Options, v6: bool): seq<IpRule> {
    if v6 && !HasV6(pl) then []
    else Excludes(o.rulePref, v6) + FwRules(pl.mask, o.rulePref, NonWan(pl))
  }

  ghost predicate Rising(own: seq<IpRule>, rs: seq<IpRule>, base: seq<IpRule>) {
    && (forall a, r :: a in own && r in rs ==> a.prio < r.prio)
    && (forall b, r :: b in base && r in rs ==> b.prio > r.prio)
    && (forall i, j :: 0 <= i < j < |rs| ==> rs[i].prio < rs[j].prio)
  }

  /** Adding one rule between earlier and later ones puts it there; deleting it first changes nothing. */
  lemma AddBetween(own: seq<IpRule>, r: IpRule, base: seq<IpRule>, v6: bool)
    requires (forall a :: a in own ==> a.prio < r.prio) && (forall b :: b in base ==> b.prio > r.prio)
    ensures r !in own + base
    ensures RuleFold(own + base, [RuleAdd(v6, r)], v6) == own + [r] + base
    ensures RuleFold(own + base, [RuleDel(v6, r), RuleAdd(v6, r)], v6) == own + [r] + base
  {
    InsertBetween(own, base, r);
    var one, two := [RuleAdd(v6, r)], [RuleDel(v6, r), RuleAdd(v6, r)];
    assert one[..0] == [] && two[..1] == [RuleDel(v6, r)] && two[..1][..0] == [];
  }

  /** The last rule of a rising list comes after everything before it. */
  lemma RisingLast(own: seq<IpRule>, rs: seq<IpRule>, base: seq<IpRule>)
    requires Rising(own, rs, base) && rs != []
    ensures var n := |rs| - 1;
      && Rising(own, rs[..n], base)
      && (forall a :: a in own + rs[..n] ==> a.prio < rs[n].prio) && (forall b :: b in base ==> b.prio > rs[n].prio)
      && own + rs[..n] + [rs[n]] + base == own + rs + base
  {
    assert rs[|rs| - 1] in rs;
  }

  lemma {:induction false} AddsInOrder(own: seq<IpRule>, rs: seq<IpRule>, base: seq<IpRule>, v6: bool)
    requires Rising(own, rs, base)
    ensures RuleFold(own + base, Adds(v6, rs), v6) == own + rs + base
  {
    if rs == [] {
      assert own + rs == own;
    } else {
      var n := |rs| - 1;
      RisingLast(own, rs, base);
      AddsInOrder(own, rs[..n], base, v6);
      AddNext(own + base, own + rs[..n], rs, base, v6);
    }
  }

  lemma AddNext(start: seq<IpRule>, done: seq<IpRule>, rs: seq<IpRule>, base: seq<IpRule>, v6: bool)
    requires rs != [] && RuleFold(start, Adds(v6, rs[..|rs| - 1]), v6) == done + base
    requires (forall a :: a in done ==> a.prio < rs[|rs| - 1].prio)
        && (forall b :: b in base ==> b.prio > rs[|rs| - 1].prio)
    ensures RuleFold(start, Adds(v6, rs), v6) == done + [rs[|rs| - 1]] + base
  {
    var n := |rs| - 1;
    AddBetween(done, rs[n], base, v6);
    AddsSnoc(v6, rs);
    RuleFoldConcat(start, Adds(v6, rs[..n]), [RuleAdd(v6, rs[n])], v6);
  }

  lemma AddsSnoc(v6: bool, rs: seq<IpRule>)
    requires rs != []
    ensures Adds(v6, rs) == Adds(v6, rs[..|rs| - 1]) + [RuleAdd(v6, rs[|rs| - 1])]
  {}

  lemma {:induction false} ReassertsInOrder(own: seq<IpRule>, rs: seq<IpRule>, base: seq<IpRule>, v6: bool)
    requires Rising(own, rs, base)
    ensures RuleFold(own + base, Reasserts(v6, rs), v6) == own + rs + base
  {
    if rs == [] {
      assert own + rs == own;
    } else {
      var n := |rs| - 1;
      RisingLast(own, rs, base);
      ReassertsInOrder(own, rs[..n], base, v6);
      AddBetween(own + rs[..n], rs[n], base, v6);
      RuleFoldConcat(own + base, Reasserts(v6, rs[..n]), [RuleDel(v6, rs[n]), RuleAdd(v6, rs[n])], v6);
    }
  }

  lemma EgressRules(rs: seq<IpRule>, mask: Word, pref: int, six: bool, i: nat, e: Egress, v6: bool)
    requires v6 ==> six
    ensures var r := FwRule(mask, pref, i, e);
      RuleFold(rs, EgressCmds(mask, pref, six, i, e), v6) == RuleFold(rs, [RuleAdd(v6, r)], v6)
    ensures var r := FwRule(mask, pref, i, e);
      RuleFold(rs, SeedCmds(mask, pref, v6, i, e), v6) == RuleFold(rs, [RuleDel(v6, r), RuleAdd(v6, r)], v6)
  {
    var r := FwRule(mask, pref, i, e);
    var four, six' := [RuleAdd(false, r)], If6(six, RuleAdd(true, r));
    var tail := RouteCmds(six, e);
    RoutesOnly(six, e);
    RuleFoldConcat(rs, four + six', tail, v6);
    RuleFoldConcat(rs, four, six', v6);
    NeutralFold(RuleFold(rs, four + six', v6), tail, v6);
    if v6 { NeutralFold(rs, four, v6); } else { NeutralFold(RuleFold(rs, four, v6), six', v6); }
    var seed := SeedCmds(mask, pref, v6, i, e);
    assert seed == seed[..2] + seed[2..];
    RuleFoldConcat(rs, seed[..2], seed[2..], v6);
    NeutralFold(RuleFold(rs, seed[..2], v6), seed[2..], v6);
    assert seed[..2] == [RuleDel(v6, r), RuleAdd(v6, r)];
  }

  lemma {:induction false} EachEgressRules(own: seq<IpRule>, base: seq<IpRule>, mask: Word, pref: int, six: bool,
        es: seq<Egress>, v6: bool)
    requires (v6 ==> six) && Rising(own, FwRules(mask, pref, es), base)
    ensures RuleFold(own + base, EachEgress(mask, pref, six, es), v6) == own + FwRules(mask, pref, es) + base
  {
    var all := FwRules(mask, pref, es);
    if es == [] {
      assert own + all == own;
    } else {
      var n := |es| - 1;
      assert all[..n] == FwRules(mask, pref, es[..n]);
      RisingLast(own, all, base);
      EachEgressRules(own, base, mask, pref, six, es[..n], v6);
      AddBetween(own + all[..n], all[n], base, v6);
      EgressRules(own + all[..n] + base, mask, pref, six, n, es[n], v6);
      RuleFoldConcat(own + base, EachEgress(mask, pref, six, es[..n]), EgressCmds(mask, pref, six, n, es[n]), v6);
    }
  }

  lemma {:induction false} EachSeedRules(own: seq<IpRule>, base: seq<IpRule>, mask: Word, pref: int, es: seq<Egress>,
        v6: bool)
    requires Rising(own, FwRules(mask, pref, es), base)
    ensures RuleFold(own + base, EachSeed(mask, pref, v6, es), v6) == own + FwRules(mask, pref, es) + base
  {
    var all := FwRules(mask, pref, es);
    if es == [] {
      assert own + all == own;
    } else {
      var n := |es| - 1;
      assert all[..n] == FwRules(mask, pref, es[..n]);
      RisingLast(own, all, base);
      EachSeedRules(own, base, mask, pref, es[..n], v6);
      AddBetween(own + all[..n], all[n], base, v6);
      EgressRules(own + all[..n] + base, mask, pref, true, n, es[n], v6);
      RuleFoldConcat(own + base, EachSeed(mask, pref, v6, es[..n]), SeedCmds(mask, pref, v6, n, es[n]), v6);
    }
  }

  lemma ExcludesRise(own: seq<IpRule>, pref: int, v6: bool, mask: Word, es: seq<Egress>, base: seq<IpRule>)
    requires forall a :: a in own ==> a.prio < pref - |PrivateRanges(v6)|
    requires forall b :: b in base ==> b.prio >= pref + |es|
    ensures Rising(own, Excludes(pref, v6), base) && Rising(own + Excludes(pref, v6), FwRules(mask, pref, es), base)
  {
    var ex, fw := Excludes(pref, v6), FwRules(mask, pref, es);
    forall r | r in ex ensures pref - |PrivateRanges(v6)| <= r.prio < pref {}
    forall r | r in fw ensures pref <= r.prio < pref + |es| {}
  }

  /** The rules of one family once the plan is installed: the plan's own, between those already there. */
  function PlanRules(pl: Plan, o: Options, k: Kernel, v6: bool): seq<IpRule> {
    InFront(o, k, v6) + OwnRules(pl, o, v6) + Behind(o, k, v6)
  }

  /** Either installer, run from a clean state, puts exactly the plan's rules between the others. */
  lemma InstalledRules(pl: Plan, o: Options, k: Kernel, v6: bool)
    requires CleanBase(pl, o, k)
    ensures Rules(ExecAll(k, InstallCmds(pl, o)), v6) == PlanRules(pl, o, k, v6)
    ensures Rules(ExecAll(k, ScriptCmds(pl, o)), v6) == PlanRules(pl, o, k, v6)
  {
    ExecFolds(k, InstallCmds(pl, o), v6, 0);
    ExecFolds(k, ScriptCmds(pl, o), v6, 0);
    CleanAround(pl, o, k, v6);
    InstallFold(pl, o, InFront(o, k, v6), Behind(o, k, v6), v6);
    ScriptFold(pl, o, InFront(o, k, v6), Behind(o, k, v6), v6);
  }

  lemma CleanAround(pl: Plan, o: Options, k: Kernel, v6: bool)
    requires CleanBase(pl, o, k)
    ensures Rules(k, v6) == InFront(o, k, v6) + Behind(o, k, v6)
    ensures Around(pl, o, InFront(o, k, v6), Behind(o, k, v6), v6)
  {
    CutLow(Rules(k, v6), FirstPref(o, v6));
    assert CleanRules(pl, o, k, v6);
  }

  /** Rules on both sides of the plan's priority numbers. */
  ghost predicate Around(pl: Plan, o: Options, lo: seq<IpRule>, hi: seq<IpRule>, v6: bool) {
    && (forall a :: a in lo ==> a.prio < FirstPref(o, v6))
    && (forall b :: b in hi ==> b.prio >= o.rulePref + |NonWan(pl)|)
  }

  function ExcludeAdds(pref: int, six: bool): seq<Cmd> {
    Adds(false, Excludes(pref, false)) + (if six then Adds(true, Excludes(pref, true)) else [])
  }

  lemma AddsNeutral(v6: bool, rs: seq<IpRule>, f: bool)
    requires f != v6
    ensures forall c :: c in Adds(v6, rs) ==> RuleNeutral(c, f)
  {}

  lemma ExcludeFold(pref: int, six: bool, lo: seq<IpRule>, hi: seq<IpRule>, v6: bool)
    requires Rising(lo, Excludes(pref, v6), hi)
    ensures RuleFold(lo + hi, ExcludeAdds(pref, six), v6) ==
      if v6 && !six then lo + hi else lo + Excludes(pref, v6) + hi
  {
    TwoAdds(Excludes(pref, false), Excludes(pref, true), six, lo, hi, v6);
  }

  lemma TwoAdds(four: seq<IpRule>, more: seq<IpRule>, six: bool, lo: seq<IpRule>, hi: seq<IpRule>, v6: bool)
    requires Rising(lo, if v6 then more else four, hi)
    ensures RuleFold(lo + hi, Adds(false, four) + (if six then Adds(true, more) else []), v6) ==
      if v6 && !six then lo + hi else lo + (if v6 then more else four) + hi
  {
    var mine := if v6 then more else four;
    RuleFoldConcat(lo + hi, Adds(false, four), if six then Adds(true, more) else [], v6);
    AddsInOrder(lo, mine, hi, v6);
    AddsNeutral(!v6, if v6 then four else more, v6);
    if v6 { NeutralFold(lo + hi, Adds(false, four), v6); } else { NeutralFold(lo + four + hi, Adds(true, more), v6); }
  }

  lemma InstallFold(pl: Plan, o: Options, lo: seq<IpRule>, hi: seq<IpRule>, v6: bool)
    requires Around(pl, o, lo, hi, v6)
    ensures RuleFold(lo + hi, InstallCmds(pl, o), v6) == lo + OwnRules(pl, o, v6) + hi
  {
    var six, es := HasV6(pl), NonWan(pl);
    var ex, each := Excludes(o.rulePref, v6), EachEgress(pl.mask, o.rulePref, six, es);
    assert InstallCmds(pl, o) == ExcludeAdds(o.rulePref, six) + each;
    RuleFoldConcat(lo + hi, ExcludeAdds(o.rulePref, six), each, v6);
    ExcludesRise(lo, o.rulePref, v6, pl.mask, es, hi);
    ExcludeFold(o.rulePref, six, lo, hi, v6);
    if v6 ==> six {
      EachEgressRules(lo + ex, hi, pl.mask, o.rulePref, six, es, v6);
      OwnRulesJoin(pl, o, lo, hi, v6);
    } else {
      EachNeutral(pl.mask, o.rulePref, es);
      NeutralFold(lo + hi, each, v6);
      assert lo + [] == lo;
    }
  }

  lemma OwnRulesJoin(pl: Plan, o: Options, lo: seq<IpRule>, hi: seq<IpRule>, v6: bool)
    requires v6 ==> HasV6(pl)
    ensures lo + Excludes(o.rulePref, v6) + FwRules(pl.mask, o.rulePref, NonWan(pl)) + hi ==
        lo + OwnRules(pl, o, v6) + hi
  {}

  lemma {:induction false} EachNeutral(mask: Word, pref: int, es: seq<Egress>)
    ensures forall c :: c in EachEgress(mask, pref, false, es) ==> RuleNeutral(c, true)
  {
    if es != [] { EachNeutral(mask, pref, es[..|es| - 1]); }
  }

  lemma {:induction false} SeedsNeutral(mask: Word, pref: int, v6: bool, es: seq<Egress>, f: bool)
    requires f != v6
    ensures forall c :: c in EachSeed(mask, pref, v6, es) ==> RuleNeutral(c, f) && forall t :: TableNeutral(c, f, t)
  {
    if es != [] { SeedsNeutral(mask, pref, v6, es[..|es| - 1], f); }
  }

  lemma {:induction false} ReassertsNeutral(v6: bool, rs: seq<IpRule>, f: bool)
    requires f != v6
    ensures forall c :: c in Reasserts(v6, rs) ==> RuleNeutral(c, f) && forall t :: TableNeutral(c, f, t)
  {
    if rs != [] { ReassertsNeutral(v6, rs[..|rs| - 1], f); }
  }

  lemma FamilyFold(pl: Plan, o: Options, lo: seq<IpRule>, hi: seq<IpRule>, v6: bool)
    requires Around(pl, o, lo, hi, v6)
    ensures RuleFold(lo + hi, FamilyScript(pl, o, v6), v6) ==
      lo + Excludes(o.rulePref, v6) + FwRules(pl.mask, o.rulePref, NonWan(pl)) + hi
    ensures RuleFold(lo + hi, FamilyScript(pl, o, !v6), v6) == lo + hi
  {
    var es, ex := NonWan(pl), Excludes(o.rulePref, v6);
    ExcludesRise(lo, o.rulePref, v6, pl.mask, es, hi);
    ReassertsInOrder(lo, ex, hi, v6);
    RuleFoldConcat(lo + hi, Reasserts(v6, ex), EachSeed(pl.mask, o.rulePref, v6, es), v6);
    EachSeedRules(lo + ex, hi, pl.mask, o.rulePref, es, v6);
    ReassertsNeutral(!v6, Excludes(o.rulePref, !v6), v6);
    SeedsNeutral(pl.mask, o.rulePref, !v6, es, v6);
    NeutralFold(lo + hi, FamilyScript(pl, o, !v6), v6);
  }

  lemma ScriptFold(pl: Plan, o: Options, lo: seq<IpRule>, hi: seq<IpRule>, v6: bool)
    requires Around(pl, o, lo, hi, v6)
    ensures RuleFold(lo + hi, ScriptCmds(pl, o), v6) == lo + OwnRules(pl, o, v6) + hi
  {
    FamilyFold(pl, o, lo, hi, v6);
    RuleFoldConcat(lo + hi, FamilyScript(pl, o, false), if HasV6(pl) then FamilyScript(pl, o, true) else [], v6);
    var mine := lo + Excludes(o.rulePref, v6) + FwRules(pl.mask, o.rulePref, NonWan(pl)) + hi;
    if v6 ==> HasV6(pl) { OwnRulesJoin(pl, o, lo, hi, v6); } else { assert lo + [] == lo; }
    if !v6 && HasV6(pl) {
      ReassertsNeutral(true, Excludes(o.rulePref, true), false);
      SeedsNeutral(pl.mask, o.rulePref, true, NonWan(pl), false);
      NeutralFold(mine, FamilyScript(pl, o, true), false);
    }
  }

  // ---- installed tables ----

  /** What the plan puts in one egress's table. */
  function TableRoutes(k: Kernel, v6: bool, e: Egress): seq<Route> {
    match e.kind
    case WAN => []
    case Tunnel =>
      var dev := if e.iface in k.links then [DefaultRoute(k, v6, None, Dev(e.iface))] else [];
      if e.failClosed then PutRoute(dev, DefaultRoute(k, v6, Some(FAIL_CLOSED_METRIC), Drop)) else dev
    case Blackhole => [DefaultRoute(k, v6, None, Drop)]
  }

  function TableSteps(cs: seq<Cmd>, v6: bool, t: int): seq<Cmd> {
    if cs == [] then []
    else TableSteps(cs[..|cs| - 1], v6, t) + (if TableNeutral(cs[|cs| - 1], v6, t) then [] else [cs[|cs| - 1]])
  }

  lemma {:induction false} OnlySteps(k: Kernel, rs: seq<Route>, cs: seq<Cmd>, v6: bool, t: int)
    ensures TableFold(k, rs, cs, v6, t) == TableFold(k, rs, TableSteps(cs, v6, t), v6, t)
  {
    if cs != [] {
      var n := |cs| - 1;
      OnlySteps(k, rs, cs[..n], v6, t);
      TableFoldConcat(k, rs, TableSteps(cs[..n], v6, t), if TableNeutral(cs[n], v6, t) then [] else [cs[n]], v6, t);
      if !TableNeutral(cs[n], v6, t) { assert [cs[n]][..0] == []; }
    }
  }

  lemma {:induction false} StepsConcat(a: seq<Cmd>, b: seq<Cmd>, v6: bool, t: int)
    ensures TableSteps(a + b, v6, t) == TableSteps(a, v6, t) + TableSteps(b, v6, t)
  {
    if b == [] {
      assert a + b == a;
    } else {
      assert (a + b)[..|a + b| - 1] == a + b[..|b| - 1];
      StepsConcat(a, b[..|b| - 1], v6, t);
    }
  }

  lemma {:induction false} NoSteps(cs: seq<Cmd>, v6: bool, t: int)
    requires forall c :: c in cs ==> TableNeutral(c, v6, t)
    ensures TableSteps(cs, v6, t) == []
  {
    if cs != [] {
      assert cs[|cs| - 1] in cs;
      NoSteps(cs[..|cs| - 1], v6, t);
    }
  }

  lemma OneStep(c: Cmd, v6: bool, t: int)
    ensures TableSteps([c], v6, t) == if TableNeutral(c, v6, t) then [] else [c]
  {
    assert [c][..0] == [];
  }

  /** The route commands of one egress, seen from its own table in one family. */
  lemma EgressSteps(mask: Word, pref: int, six: bool, i: nat, e: Egress, v6: bool)
    requires (v6 ==> six) && e.kind != WAN
    ensures TableSteps(EgressCmds(mask, pref, six, i, e), v6, e.table) ==
      [RouteReplace(v6, e.table, None, if e.kind == Blackhole then Drop else Dev(e.iface))] +
        (if e.kind == Tunnel && e.failClosed then [RouteReplace(v6, e.table, Some(FAIL_CLOSED_METRIC), Drop)] else [])
  {
    var r := FwRule(mask, pref, i, e);
    var t := e.table;
    var rules := [RuleAdd(false, r)] + If6(six, RuleAdd(true, r));
    NoSteps(rules, v6, t);
    var m: Option<nat> := None;
    var first := if e.kind == Blackhole then Drop else Dev(e.iface);
    var a4, a6 := RouteReplace(false, t, m, first), RouteReplace(true, t, m, first);
    var b4, b6 := RouteReplace(false, t, Some(FAIL_CLOSED_METRIC), Drop),
        RouteReplace(true, t, Some(FAIL_CLOSED_METRIC), Drop);
    PairSteps(a4, a6, six, v6, t);
    PairSteps(b4, b6, six, v6, t);
    var head, tail := [a4] + If6(six, a6), if e.kind == Tunnel && e.failClosed then [b4] + If6(six, b6) else [];
    assert EgressCmds(mask, pref, six, i, e) == rules + (head + tail);
    StepsConcat(rules, head + tail, v6, t);
    StepsConcat(head, tail, v6, t);
  }

  lemma PairSteps(c4: Cmd, c6: Cmd, six: bool, v6: bool, t: int)
    requires c4.RouteReplace? && c6.RouteReplace? && !c4.v6 && c6.v6 && c4.table == t == c6.table && (v6 ==> six)
    ensures TableSteps([c4] + If6(six, c6), v6, t) == [if v6 then c6 else c4]
  {
    StepsConcat([c4], If6(six, c6), v6, t);
    OneStep(c4, v6, t);
    OneStep(c6, v6, t);
  }

  lemma EgressTable(k: Kernel, mask: Word, pref: int, six: bool, i: nat, e: Egress, v6: bool)
    requires (v6 ==> six) && e.kind != WAN
    ensures TableFold(k, [], EgressCmds(mask, pref, six, i, e), v6, e.table) == TableRoutes(k, v6, e)
  {
    OnlySteps(k, [], EgressCmds(mask, pref, six, i, e), v6, e.table);
    EgressSteps(mask, pref, six, i, e, v6);
    StepsFill(k, e, v6, RouteReplace(v6, e.table, None, if e.kind == Blackhole then Drop else Dev(e.iface)),
              RouteReplace(v6, e.table, Some(FAIL_CLOSED_METRIC), Drop));
  }

  lemma StepsFill(k: Kernel, e: Egress, v6: bool, a: Cmd, b: Cmd)
    requires e.kind != WAN && a == RouteReplace(v6, e.table, None, if e.kind == Blackhole then Drop else Dev(e.iface))
    requires b == RouteReplace(v6, e.table, Some(FAIL_CLOSED_METRIC), Drop)
    ensures TableFold(k, [], [a] + (if e.kind == Tunnel && e.failClosed then [b] else []), v6, e.table) ==
      TableRoutes(k, v6, e)
  {
    TwoSteps(k, a, b, v6, e.table);
    assert [a] + [] == [a];
  }

  lemma TwoSteps(k: Kernel, a: Cmd, b: Cmd, v6: bool, t: int)
    ensures TableFold(k, [], [a], v6, t) == TableEffect(k, [], a, v6, t)
    ensures TableFold(k, [], [a] + [b], v6, t) == TableEffect(k, TableEffect(k, [], a, v6, t), b, v6, t)
  {
    assert [a][..0] == [] && ([a] + [b])[..1] == [a];
  }

  lemma SeedTable(k: Kernel, mask: Word, pref: int, i: nat, e: Egress, v6: bool)
    requires e.kind != WAN
    ensures TableFold(k, [], SeedCmds(mask, pref, v6, i, e), v6, e.table) == TableRoutes(k, v6, e)
  {
    var cs := SeedCmds(mask, pref, v6, i, e);
    TableFoldConcat(k, [], cs[..2], cs[2..], v6, e.table);
    assert cs == cs[..2] + cs[2..];
    NeutralTable(k, [], cs[..2], v6, e.table);
    var b := RouteReplace(v6, e.table, Some(FAIL_CLOSED_METRIC), Drop);
    var a := if e.kind == Blackhole then RouteReplace(v6, e.table, None, Drop)
        else RouteAdd(v6, e.table, None, Dev(e.iface));
    assert cs[2..] == if e.kind == Tunnel && e.failClosed then [a] + [b] else [a];
    TwoSteps(k, a, b, v6, e.table);
    var d := DefaultRoute(k, v6, None, Dev(e.iface));
    assert !HasKey([], d) && [] + [d] == [d];
  }

  lemma CmdsOfOneTable(mask: Word, pref: int, six: bool, i: nat, e: Egress, v6: bool, t: int)
    requires e.table != t || (v6 && !six)
    ensures forall c :: c in EgressCmds(mask, pref, six, i, e) ==> TableNeutral(c, v6, t)
    ensures e.table != t ==> forall c :: c in SeedCmds(mask, pref, v6, i, e) ==> TableNeutral(c, v6, t)
  {}

  lemma {:induction false} EachTable(k: Kernel, rs: seq<Route>, mask: Word, pref: int, six: bool, es: seq<Egress>,
        v6: bool, t: int)
    requires TablesDistinct(es) && (v6 ==> six) && forall e :: e in es ==> e.kind != WAN
    requires (exists e :: e in es && e.table == t) ==> rs == []
    ensures (forall e :: e in es ==> e.table != t) ==> TableFold(k, rs, EachEgress(mask, pref, six, es), v6, t) == rs
    ensures forall e :: e in es && e.table == t
              ==> TableFold(k, rs, EachEgress(mask, pref, six, es), v6, t) == TableRoutes(k, v6, e)
  {
    if es != [] {
      var n := |es| - 1;
      var e := es[n];
      assert es == es[..n] + [e] && e in es;
      EachTable(k, rs, mask, pref, six, es[..n], v6, t);
      TableFoldConcat(k, rs, EachEgress(mask, pref, six, es[..n]), EgressCmds(mask, pref, six, n, e), v6, t);
      var mid := TableFold(k, rs, EachEgress(mask, pref, six, es[..n]), v6, t);
      if e.table == t {
        EgressTable(k, mask, pref, six, n, e, v6);
      } else {
        CmdsOfOneTable(mask, pref, six, n, e, v6, t);
        NeutralTable(k, mid, EgressCmds(mask, pref, six, n, e), v6, t);
      }
    }
  }

  lemma {:induction false} EachSeedTable(k: Kernel, rs: seq<Route>, mask: Word, pref: int, es: seq<Egress>, v6: bool,
        t: int)
    requires TablesDistinct(es) && forall e :: e in es ==> e.kind != WAN
    requires (exists e :: e in es && e.table == t) ==> rs == []
    ensures (forall e :: e in es ==> e.table != t) ==> TableFold(k, rs, EachSeed(mask, pref, v6, es), v6, t) == rs
    ensures forall e :: e in es && e.table == t
              ==> TableFold(k, rs, EachSeed(mask, pref, v6, es), v6, t) == TableRoutes(k, v6, e)
  {
    if es != [] {
      var n := |es| - 1;
      var e := es[n];
      assert es == es[..n] + [e] && e in es;
      EachSeedTable(k, rs, mask, pref, es[..n], v6, t);
      TableFoldConcat(k, rs, EachSeed(mask, pref, v6, es[..n]), SeedCmds(mask, pref, v6, n, e), v6, t);
      var mid := TableFold(k, rs, EachSeed(mask, pref, v6, es[..n]), v6, t);
      if e.table == t {
        SeedTable(k, mask, pref, n, e, v6);
      } else {
        CmdsOfOneTable(mask, pref, true, n, e, v6, t);
        NeutralTable(k, mid, SeedCmds(mask, pref, v6, n, e), v6, t);
      }
    }
  }

  lemma {:induction false} NonWanKinds(es: seq<Egress>)
    ensures forall e :: e in NonWanOf(es) <==> e in es && e.kind != WAN
  {
    if es != [] {
      NonWanKinds(es[..|es| - 1]);
      assert es == es[..|es| - 1] + [es[|es| - 1]];
    }
  }

  lemma NonWanMembers(pl: Plan)
    ensures forall e :: e in NonWan(pl) <==> e in pl.egresses && e.kind != WAN
  {
    NonWanKinds(pl.egresses);
    SortPermutes(NonWanOf(pl.egresses), MarkLeq);
  }

  /** Either installer fills each egress's table the same way and touches no other table. */
  lemma InstalledTables(pl: Plan, o: Options, k: Kernel, v6: bool, t: int)
    requires CleanBase(pl, o, k) && TablesDistinct(NonWan(pl))
    ensures var a, b := ExecAll(k, InstallCmds(pl, o)), ExecAll(k, ScriptCmds(pl, o));
      && Table(a, v6, t) == Table(b, v6, t)
      && ((v6 ==> HasV6(pl)) ==>
            forall e :: e in NonWan(pl) && e.table == t ==> Table(a, v6, t) == TableRoutes(k, v6, e))
      && ((forall e :: e in NonWan(pl) ==> e.table != t) ==> Table(a, v6, t) == Table(k, v6, t))
  {
    var es, six := NonWan(pl), HasV6(pl);
    var rs := Table(k, v6, t);
    NonWanMembers(pl);
    ExecFolds(k, InstallCmds(pl, o), v6, t);
    ExecFolds(k, ScriptCmds(pl, o), v6, t);
    InstallTable(pl, o, k, rs, v6, t);
    ScriptTable(pl, o, k, rs, v6, t);
    if v6 ==> six {
      EachTable(k, rs, pl.mask, o.rulePref, six, es, v6, t);
      EachSeedTable(k, rs, pl.mask, o.rulePref, es, v6, t);
    }
  }

  lemma InstallTable(pl: Plan, o: Options, k: Kernel, rs: seq<Route>, v6: bool, t: int)
    ensures TableFold(k, rs, InstallCmds(pl, o), v6, t) ==
      if v6 ==> HasV6(pl) then TableFold(k, rs, EachEgress(pl.mask, o.rulePref, HasV6(pl), NonWan(pl)), v6, t) else rs
  {
    var six := HasV6(pl);
    var each := EachEgress(pl.mask, o.rulePref, six, NonWan(pl));
    assert InstallCmds(pl, o) == ExcludeAdds(o.rulePref, six) + each;
    TableFoldConcat(k, rs, ExcludeAdds(o.rulePref, six), each, v6, t);
    NeutralTable(k, rs, ExcludeAdds(o.rulePref, six), v6, t);
    if v6 && !six {
      EachSixNeutral(pl.mask, o.rulePref, NonWan(pl), t);
      NeutralTable(k, rs, each, v6, t);
    }
  }

  lemma {:induction false} EachSixNeutral(mask: Word, pref: int, es: seq<Egress>, t: int)
    ensures forall c :: c in EachEgress(mask, pref, false, es) ==> TableNeutral(c, true, t)
  {
    if es != [] {
      EachSixNeutral(mask, pref, es[..|es| - 1], t);
      CmdsOfOneTable(mask, pref, false, |es| - 1, es[|es| - 1], true, t);
    }
  }

  lemma {:induction false} ReassertTables(v6: bool, rs: seq<IpRule>, f: bool, t: int)
    ensures forall c :: c in Reasserts(v6, rs) ==> TableNeutral(c, f, t)
  {
    if rs != [] { ReassertTables(v6, rs[..|rs| - 1], f, t); }
  }

  lemma ScriptTable(pl: Plan, o: Options, k: Kernel, rs: seq<Route>, v6: bool, t: int)
    ensures TableFold(k, rs, ScriptCmds(pl, o), v6, t) ==
      if v6 ==> HasV6(pl) then TableFold(k, rs, EachSeed(pl.mask, o.rulePref, v6, NonWan(pl)), v6, t) else rs
  {
    var four, more := FamilyScript(pl, o, false), if HasV6(pl) then FamilyScript(pl, o, true) else [];
    TableFoldConcat(k, rs, four, more, v6, t);
    FamilyTable(pl, o, k, rs, v6, t);
    if v6 {
      FamilyTable(pl, o, k, rs, true, t);
    } else {
      FamilyTable(pl, o, k, TableFold(k, rs, four, false, t), false, t);
    }
  }

  lemma FamilyTable(pl: Plan, o: Options, k: Kernel, rs: seq<Route>, v6: bool, t: int)
    ensures TableFold(k, rs, FamilyScript(pl, o, v6), v6, t) ==
        TableFold(k, rs, EachSeed(pl.mask, o.rulePref, v6, NonWan(pl)), v6, t)
    ensures TableFold(k, rs, FamilyScript(pl, o, !v6), v6, t) == rs
  {
    var ex := Excludes(o.rulePref, v6);
    TableFoldConcat(k, rs, Reasserts(v6, ex), EachSeed(pl.mask, o.rulePref, v6, NonWan(pl)), v6, t);
    ReassertTables(v6, ex, v6, t);
    NeutralTable(k, rs, Reasserts(v6, ex), v6, t);
    ReassertsNeutral(!v6, Excludes(o.rulePref, !v6), v6);
    SeedsNeutral(pl.mask, o.rulePref, !v6, NonWan(pl), v6);
    NeutralTable(k, rs, FamilyScript(pl, o, !v6), v6, t);
  }
}
