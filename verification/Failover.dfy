/**
 The failover election of `internal/keenetic/kpbr.go`: the members a routing table can use, and
 the `set_table` function its generated cron runs once a minute. Probe answers, the discovered
 WAN interface and the member list are inputs of each run; two probes of one interface in the
 same run may answer differently.
 */
module Failover {
  import opened Cidr
  import opened Profiles
  import opened Compile

  const WAN_TOKEN := "WAN"
  const BLOCK_TOKEN := "BLOCK"

  // ---- members ----

  /** `memberToken`: "" for a member the kernel cannot reach. */
  function MemberToken(p: Profile, member: string): string {
    if member == DIRECT || member == "" then WAN_TOKEN
    else if member == BLOCK then BLOCK_TOKEN
    else
      match EndpointByID(p.endpoints, member)
      case Some(e) => KernelIface(e)
      case None => ""
  }

  function Tokens(p: Profile, members: seq<string>): seq<string> {
    if members == [] then []
    else
      var t := MemberToken(p, members[|members| - 1]);
      Tokens(p, members[..|members| - 1]) + if t == "" then [] else [t]
  }

  function EgressMembers(p: Profile, tag: string): seq<string> {
    match GroupByID(p.groups, tag)
    case Some(g) => Tokens(p, g.members)
    case None => if MemberToken(p, tag) == "" then [] else [MemberToken(p, tag)]
  }

  lemma {:induction false} TokensNonEmpty(p: Profile, members: seq<string>)
    ensures "" !in Tokens(p, members)
  {
    if members != [] { TokensNonEmpty(p, members[..|members| - 1]); }
  }

  method ResolveEgressMembers(p: Profile, tag: string) returns (out: seq<string>)
    ensures out == EgressMembers(p, tag) && "" !in out
  {
    var g := GroupByID(p.groups, tag);
    if g.Some? {
      var members := g.value.members;
      out := [];
      for i := 0 to |members|
        invariant out == Tokens(p, members[..i])
      {
        assert members[..i + 1][..i] == members[..i];
        var t := MemberToken(p, members[i]);
        if t != "" { out := out + [t]; }
      }
      assert members[..|members|] == members;
      TokensNonEmpty(p, members);
      return;
    }
    var t := MemberToken(p, tag);
    return if t == "" then [] else [t];
  }

  predicate IsTunnel(m: string) { m != WAN_TOKEN && m != BLOCK_TOKEN }

  function FirstTunnel(ts: seq<string>): Option<string> {
    if ts == [] then None else if IsTunnel(ts[0]) then Some(ts[0]) else FirstTunnel(ts[1..])
  }

  lemma {:induction false} FirstTunnelConcat(a: seq<string>, b: seq<string>)
    ensures FirstTunnel(a + b) == if FirstTunnel(a).Some? then FirstTunnel(a) else FirstTunnel(b)
  {
    if a == [] {
      assert a + b == b;
    } else {
      assert (a + b)[1..] == a[1..] + b;
      FirstTunnelConcat(a[1..], b);
    }
  }

  lemma {:induction false} TokensConcat(p: Profile, a: seq<string>, b: seq<string>)
    ensures Tokens(p, a + b) == Tokens(p, a) + Tokens(p, b)
  {
    if b == [] {
      assert a + b == a;
    } else {
      assert (a + b)[..|a + b| - 1] == a + b[..|b| - 1];
      TokensConcat(p, a, b[..|b| - 1]);
    }
  }

  predicate Builtin(id: string) { id == DIRECT || id == BLOCK || id == "" }

  ghost predicate NoBuiltinEndpoint(p: Profile) { forall e :: e in p.endpoints ==> !Builtin(e.id) }

  // ---- the compiler's choice and the cron's ----

  predicate KernelNamed(p: Profile, m: string) {
    var e := EndpointByID(p.endpoints, m);
    e.Some? && KernelIface(e.value) != ""
  }

  /** The member the compiler takes the interface from. */
  function KernelAt(p: Profile, members: seq<string>): (n: nat)
    ensures n <= |members| && (n < |members| ==> KernelNamed(p, members[n]))
    ensures forall i :: 0 <= i < n ==> !KernelNamed(p, members[i])
  {
    if members == [] || KernelNamed(p, members[0]) then 0 else KernelAt(p, members[1..]) + 1
  }

  /** The first interface of a member that is not called like a builtin, and that is not called like a token. */
  function CronFirst(p: Profile, members: seq<string>): Option<string> {
    if members == [] then None
    else if !Builtin(members[0]) && KernelNamed(p, members[0]) && IsTunnel(MemberToken(p, members[0])) then
      Some(MemberToken(p, members[0]))
    else CronFirst(p, members[1..])
  }

  lemma OneToken(p: Profile, m: string)
    ensures FirstTunnel(Tokens(p, [m])) == CronFirst(p, [m])
  {
    var t := MemberToken(p, m);
    assert Tokens(p, []) == [];
    assert Tokens(p, [m]) == if t == "" then [] else [t];
    assert FirstTunnel([]) == None;
    if t != "" { assert [t][1..] == []; }
  }

  lemma {:induction false} TokensElect(p: Profile, members: seq<string>)
    ensures FirstTunnel(Tokens(p, members)) == CronFirst(p, members)
  {
    if members != [] {
      var m, rest := members[0], members[1..];
      TokensElect(p, rest);
      assert members == [m] + rest;
      TokensConcat(p, [m], rest);
      FirstTunnelConcat(Tokens(p, [m]), Tokens(p, rest));
      OneToken(p, m);
    }
  }

  lemma {:induction false} KernelFirst(p: Profile, members: seq<string>)
    ensures var n := KernelAt(p, members);
      if n == |members| then FirstKernelMember(p, members) == None
      else
        && FirstKernelMember(p, members) == Some(KernelIface(EndpointByID(p.endpoints, members[n]).value))
        && CronFirst(p, members) ==
          if !Builtin(members[n]) && IsTunnel(MemberToken(p, members[n])) then FirstKernelMember(p, members)
          else CronFirst(p, members[n + 1..])
  {
    if members != [] && !KernelNamed(p, members[0]) {
      KernelFirst(p, members[1..]);
      var n := KernelAt(p, members[1..]);
      if n < |members[1..]| { assert members[1..][n + 1..] == members[n + 2..]; }
    }
  }

  lemma {:induction false} CronFirstIsTunnel(p: Profile, members: seq<string>)
    ensures CronFirst(p, members).Some? ==> IsTunnel(CronFirst(p, members).value)
  {
    if members != [] { CronFirstIsTunnel(p, members[1..]); }
  }

  /**
   When the two agree on a tunnel egress: the interface is not called like a token, and in a
   group the member the compiler takes it from is not called like a builtin, or the later
   members lead the cron to the same interface. An endpoint that shares its id with a group
   counts for the compiler only.
   */
  predicate SameChoice(p: Profile, tag: string, iface: string) {
    match GroupByID(p.groups, tag)
    case None => IsTunnel(iface)
    case Some(g) =>
      var n := KernelAt(p, g.members);
      if EndpointByID(p.endpoints, tag).Some? || n == |g.members| then CronFirst(p, g.members) == Some(iface)
      else IsTunnel(iface) && (Builtin(g.members[n]) ==> CronFirst(p, g.members[n + 1..]) == Some(iface))
  }

  /** For every profile, the cron's first choice for a compiled tunnel egress is the compiler's exactly then. */
  lemma FirstChoiceIff(p: Profile, tag: string)
    requires ResolveEgress(p, tag).Some? && ResolveEgress(p, tag).value.kind == Tunnel
    ensures var iface := ResolveEgress(p, tag).value.iface;
      FirstTunnel(EgressMembers(p, tag)) == Some(iface) <==> SameChoice(p, tag, iface)
  {
    match GroupByID(p.groups, tag)
    case Some(g) => GroupChoice(p, tag, g);
    case None => SingleChoice(p, tag);
  }

  lemma SingleChoice(p: Profile, tag: string)
    requires GroupByID(p.groups, tag).None?
    requires ResolveEgress(p, tag).Some? && ResolveEgress(p, tag).value.kind == Tunnel
    ensures var iface := ResolveEgress(p, tag).value.iface;
      FirstTunnel(EgressMembers(p, tag)) == Some(iface) <==> IsTunnel(iface)
  {
    var t := MemberToken(p, tag);
    assert t != "" && EgressMembers(p, tag) == [t];
    assert [t][1..] == [];
  }

  lemma GroupChoice(p: Profile, tag: string, g: Group)
    requires GroupByID(p.groups, tag) == Some(g)
    requires ResolveEgress(p, tag).Some? && ResolveEgress(p, tag).value.kind == Tunnel
    ensures var iface := ResolveEgress(p, tag).value.iface;
      FirstTunnel(EgressMembers(p, tag)) == Some(iface) <==> SameChoice(p, tag, iface)
  {
    TokensElect(p, g.members);
    if EndpointByID(p.endpoints, tag).None? {
      KernelFirst(p, g.members);
      CronFirstIsTunnel(p, g.members);
    } else {
      KernelFirst(p, g.members);
    }
  }

  /** With no endpoint called like a builtin and every id used once, only the interface's own name can part them. */
  lemma FirstChoiceIsCompiledEgress(p: Profile, tag: string)
    requires NoBuiltinEndpoint(p) && (EndpointByID(p.endpoints, tag).None? || GroupByID(p.groups, tag).None?)
    requires ResolveEgress(p, tag).Some? && ResolveEgress(p, tag).value.kind == Tunnel
    ensures var iface := ResolveEgress(p, tag).value.iface;
      FirstTunnel(EgressMembers(p, tag)) == Some(iface) <==> IsTunnel(iface)
  {
    FirstChoiceIff(p, tag);
    if g :| GroupByID(p.groups, tag) == Some(g) { KernelFirst(p, g.members); }
  }

  const NAMED_DIRECT := Endpoint(DIRECT, External, WireGuard, Blank, Blank, true, "wg0", [])
  const MISLED := Profile([NAMED_DIRECT], [Group("g", [DIRECT], false)], [], [])

  /** With an endpoint called like a builtin, the compiler takes its interface and the cron reads the name as WAN. */
  lemma BuiltinEndpointMisleads()
    ensures ResolveEgress(MISLED, "g") == Some(Resolved(Tunnel, "wg0"))
        && FirstTunnel(EgressMembers(MISLED, "g")) == None
  {
    var g := MISLED.groups[0];
    assert EndpointByID(MISLED.endpoints, "g") == None;
    assert GroupByID(MISLED.groups, "g") == Some(g);
    assert EndpointByID(MISLED.endpoints, DIRECT) == Some(NAMED_DIRECT);
    assert FirstKernelMember(MISLED, g.members) == Some("wg0");
    assert g.members[..0] == [] && Tokens(MISLED, []) == [];
    assert Tokens(MISLED, g.members) == [WAN_TOKEN];
    assert [WAN_TOKEN][1..] == [] && FirstTunnel([]) == None;
  }

  // ---- one run ----

  /** The default route of one table. */
  datatype Route = NoRoute | Dev(name: string) | DropAll

  /** The route and the counter file, which persist between runs. */
  datatype Table = Table(route: Route, count: nat)

  /** `sticky` answers the probe of the current interface, `alive` the probe at each position of the list. */
  datatype AnyRun = AnyRun(members: seq<string>, wanIf: string, sticky: bool, alive: nat -> bool)

  type Cron = r: AnyRun | "" !in r.members witness AnyRun([], "", false, i => false)

  function Cur(t: Table): string { if t.route.Dev? then t.route.name else "" }

  /** The current tunnel is still a member and answers. */
  predicate Kept(t: Table, r: Cron) { Cur(t) != "" && Cur(t) != r.wanIf && Cur(t) in r.members && r.sticky }

  function ElectFrom(t: Table, r: Cron, i: nat): Table
    requires i <= |r.members|
    decreases |r.members| - i
  {
    if i == |r.members| then t
    else
      var m, n := r.members[i], t.count + 1;
      if m == WAN_TOKEN then Table(if n >= 3 && Cur(t) != r.wanIf && r.wanIf != "" then Dev(r.wanIf) else t.route, n)
      else if m == BLOCK_TOKEN then Table(if n >= 3 then DropAll else t.route, n)
      else if r.alive(i) then Table(if m != Cur(t) then Dev(m) else t.route, 0)
      else ElectFrom(t, r, i + 1)
  }

  function Elect(t: Table, r: Cron): Table { if Kept(t, r) then t.(count := 0) else ElectFrom(t, r, 0) }

  /** `set_table`. */
  method SetTable(t: Table, r: Cron) returns (n: Table)
    ensures n == Elect(t, r)
  {
    var cur := Cur(t);
    if cur != "" && cur != r.wanIf {
      if cur in r.members && r.sticky {
        return t.(count := 0);
      }
    }
    for i := 0 to |r.members|
      invariant Elect(t, r) == ElectFrom(t, r, i)
    {
      var m := r.members[i];
      if m == WAN_TOKEN {
        var k := t.count + 1;
        var route := t.route;
        if k >= 3 && cur != r.wanIf && r.wanIf != "" { route := Dev(r.wanIf); }
        return Table(route, k);
      } else if m == BLOCK_TOKEN {
        var k := t.count + 1;
        return Table(if k >= 3 then DropAll else t.route, k);
      } else if r.alive(i) {
        return Table(if m != cur then Dev(m) else t.route, 0);
      }
    }
    return t;
  }

  /** The position of the first fallback, or the end of the list. */
  function Fallback(ms: seq<string>): (k: nat)
    ensures k <= |ms| && (forall i :: 0 <= i < k ==> IsTunnel(ms[i])) && (k < |ms| ==> !IsTunnel(ms[k]))
  {
    if ms == [] || !IsTunnel(ms[0]) then 0 else 1 + Fallback(ms[1..])
  }

  /** The run found every tunnel listed before its fallback down. */
  ghost predicate AllDown(t: Table, r: Cron) {
    !Kept(t, r) && forall i :: 0 <= i < Fallback(r.members) ==> !r.alive(i)
  }

  /** The first tunnel before the fallback that answers, if any. */
  ghost predicate Answers(r: Cron, i: nat) {
    i < Fallback(r.members) && r.alive(i) && forall j :: 0 <= j < i ==> !r.alive(j)
  }

  lemma {:induction false} ElectsFirst(t: Table, r: Cron, i: nat, k: nat)
    requires i <= k && Answers(r, k)
    ensures ElectFrom(t, r, i) == Table(Dev(r.members[k]), 0)
    decreases k - i
  {
    assert r.members[i] in r.members;
    if i < k { ElectsFirst(t, r, i + 1, k); }
  }

  lemma {:induction false} FallsThrough(t: Table, r: Cron, i: nat)
    requires i <= Fallback(r.members) && forall j :: i <= j < Fallback(r.members) ==> !r.alive(j)
    ensures ElectFrom(t, r, i) == ElectFrom(t, r, Fallback(r.members))
    decreases Fallback(r.members) - i
  {
    if i < Fallback(r.members) { FallsThrough(t, r, i + 1); }
  }

  lemma {:induction false} FirstAnswer(r: Cron, k: nat) returns (i: nat)
    requires k < Fallback(r.members) && r.alive(k)
    ensures Answers(r, i)
  {
    if j: nat :| j < k && r.alive(j) { i := FirstAnswer(r, j); } else { i := k; }
  }

  /** What one run does: keep a healthy tunnel, else take the first that answers, else count towards the fallback. */
  lemma RunOutcome(t: Table, r: Cron) returns (k: nat)
    ensures Kept(t, r) ==> Elect(t, r) == t.(count := 0)
    ensures !Kept(t, r) && !AllDown(t, r) ==> Answers(r, k) && Elect(t, r) == Table(Dev(r.members[k]), 0)
    ensures AllDown(t, r) && Fallback(r.members) < |r.members| ==> Elect(t, r).count == t.count + 1
    ensures AllDown(t, r) && Fallback(r.members) == |r.members| ==> Elect(t, r) == t
  {
    k := 0;
    if AllDown(t, r) {
      FallsThrough(t, r, 0);
    } else if !Kept(t, r) {
      var j: nat :| j < Fallback(r.members) && r.alive(j);
      k := FirstAnswer(r, j);
      ElectsFirst(t, r, 0, k);
    }
  }

  /**
   In the run's own terms: a table stays on its tunnel exactly while that is not the WAN, is
   still a member and answers; otherwise the first tunnel that answers takes over.
   */
  lemma StaysIff(t: Table, r: Cron, k: nat)
    requires Answers(r, k)
    ensures var on := t.route.Dev? && t.route.name != "" && t.route.name != r.wanIf && t.route.name in r.members
        && r.sticky;
      Elect(t, r) == if on then Table(t.route, 0) else Table(Dev(r.members[k]), 0)
  {
    ElectsFirst(t, r, 0, k);
  }

  // ---- many runs ----

  function After(t: Table, rs: seq<Cron>, n: nat): Table
    requires n <= |rs|
  {
    if n == 0 then t else Elect(After(t, rs, n - 1), rs[n - 1])
  }

  /** In this run the table was on that tunnel, which failed its probe or is no longer a member. */
  ghost predicate GaveUp(t: Table, rs: seq<Cron>, j: nat, name: string)
    requires j < |rs|
  {
    After(t, rs, j).route == Dev(name) && (!rs[j].sticky || name !in rs[j].members)
  }

  /**
   Over every sequence of runs, a table that was on a tunnel and later is not, has in between
   had a run that found that tunnel down or no longer a member.
   */
  lemma {:induction false} LeavesOnlyWhenDown(t: Table, rs: seq<Cron>, m: nat, n: nat, name: string)
    requires m <= n <= |rs| && name != "" && forall r :: r in rs ==> r.wanIf != name
    requires After(t, rs, m).route == Dev(name) && After(t, rs, n).route != Dev(name)
    ensures exists j :: m <= j < n && GaveUp(t, rs, j, name)
  {
    if After(t, rs, n - 1).route == Dev(name) {
      assert rs[n - 1] in rs;
      assert GaveUp(t, rs, n - 1, name);
    } else {
      LeavesOnlyWhenDown(t, rs, m, n - 1, name);
    }
  }

  /** How many runs in a row, up to the `n`-th, found every tunnel down. */
  ghost function Streak(t: Table, rs: seq<Cron>, n: nat): nat
    requires n <= |rs|
  {
    if n > 0 && AllDown(After(t, rs, n - 1), rs[n - 1]) then 1 + Streak(t, rs, n - 1) else 0
  }

  lemma {:induction false} StreakRuns(t: Table, rs: seq<Cron>, n: nat, j: nat)
    requires n <= |rs| && n - Streak(t, rs, n) <= j < n
    ensures AllDown(After(t, rs, j), rs[j])
  {
    if j < n - 1 { StreakRuns(t, rs, n - 1, j); }
  }

  lemma {:induction false} CountBelowStreak(t: Table, rs: seq<Cron>, n: nat)
    requires n <= |rs| && t.count == 0
    ensures After(t, rs, n).count <= Streak(t, rs, n)
    ensures (forall r :: r in rs ==> Fallback(r.members) < |r.members|) ==> After(t, rs, n).count == Streak(t, rs, n)
  {
    if n > 0 {
      CountBelowStreak(t, rs, n - 1);
      var _ := RunOutcome(After(t, rs, n - 1), rs[n - 1]);
      assert rs[n - 1] in rs;
    }
  }

  /** The run's own tunnels. */
  ghost predicate TunnelOf(r: Cron, route: Route) { route.Dev? && route.name in r.members && IsTunnel(route.name) }

  lemma LeavingNeedsCount(t: Table, r: Cron)
    requires Elect(t, r).route != t.route && !TunnelOf(r, Elect(t, r).route)
    ensures AllDown(t, r) && t.count >= 2
  {
    var k := RunOutcome(t, r);
    if AllDown(t, r) { FallsThrough(t, r, 0); }
  }

  /**
   Over every sequence of runs a table is given WAN or a blackhole only in the third run in a row,
   at least, with every tunnel down.
   */
  lemma FallbackNeedsThreeRuns(t: Table, rs: seq<Cron>, n: nat)
    requires n < |rs| && t.count == 0
    requires After(t, rs, n + 1).route != After(t, rs, n).route && !TunnelOf(rs[n], After(t, rs, n + 1).route)
    ensures n >= 2 && forall j :: n - 2 <= j <= n ==> AllDown(After(t, rs, j), rs[j])
  {
    LeavingNeedsCount(After(t, rs, n), rs[n]);
    CountBelowStreak(t, rs, n);
    assert Streak(t, rs, n + 1) >= 3;
    StreakBounded(t, rs, n);
    forall j | n - 2 <= j <= n ensures AllDown(After(t, rs, j), rs[j]) { StreakRuns(t, rs, n + 1, j); }
  }

  lemma {:induction false} StreakBounded(t: Table, rs: seq<Cron>, n: nat)
    requires n <= |rs|
    ensures Streak(t, rs, n) <= n
  {
    if n > 0 { StreakBounded(t, rs, n - 1); }
  }

  /** With a fallback in every list, the third such run does install it, and every later one keeps it. */
  lemma ThirdRunFallsBack(t: Table, rs: seq<Cron>, n: nat)
    requires 0 < n <= |rs| && t.count == 0 && Streak(t, rs, n) >= 3
    requires forall r :: r in rs ==> Fallback(r.members) < |r.members|
    ensures var r := rs[n - 1];
      var fallback := r.members[Fallback(r.members)];
      && (fallback == BLOCK_TOKEN ==> After(t, rs, n).route == DropAll)
      && (fallback == WAN_TOKEN && r.wanIf != "" ==> After(t, rs, n).route == Dev(r.wanIf))
  {
    CountBelowStreak(t, rs, n);
    CountBelowStreak(t, rs, n - 1);
    FallsThrough(After(t, rs, n - 1), rs[n - 1], 0);
  }

  // ---- the fallback a group names ----

  ghost predicate NoDeviceLikeToken(p: Profile) {
    forall e :: e in p.endpoints ==> KernelIface(e) != "WAN" && KernelIface(e) != "BLOCK"
  }

  /** The first member of the list that is a builtin: direct, block, or the empty text that stands for direct. */
  predicate FirstBuiltin(ms: seq<string>, k: nat) {
    k < |ms| && ms[k] in {"direct", "block", ""} && forall i :: 0 <= i < k ==> ms[i] !in {"direct", "block", ""}
  }

  lemma {:induction false} TunnelsOnly(p: Profile, ms: seq<string>)
    requires NoDeviceLikeToken(p) && forall i :: 0 <= i < |ms| ==> ms[i] !in {"direct", "block", ""}
    ensures forall t :: t in Tokens(p, ms) ==> IsTunnel(t)
  {
    if ms != [] { TunnelsOnly(p, ms[..|ms| - 1]); }
  }

  lemma {:induction false} FallbackBehind(a: seq<string>, t: string, b: seq<string>)
    requires (forall x :: x in a ==> IsTunnel(x)) && !IsTunnel(t)
    ensures Fallback(a + ([t] + b)) == |a|
  {
    var all := a + ([t] + b);
    if a == [] {
      assert all[0] == t;
    } else {
      assert all[0] == a[0] && a[0] in a && all[1..] == a[1..] + ([t] + b);
      forall x | x in a[1..] ensures x in a {}
      FallbackBehind(a[1..], t, b);
    }
  }

  lemma TokensAround(p: Profile, ms: seq<string>, k: nat)
    requires k < |ms| && MemberToken(p, ms[k]) != ""
    ensures Tokens(p, ms) == Tokens(p, ms[..k]) + ([MemberToken(p, ms[k])] + Tokens(p, ms[k + 1..]))
  {
    OneMemberToken(p, ms[k]);
    TokensSplit(p, ms[..k], ms[k..], ms);
    TokensSplit(p, [ms[k]], ms[k + 1..], ms[k..]);
  }

  lemma TokensSplit(p: Profile, a: seq<string>, b: seq<string>, all: seq<string>)
    requires all == a + b
    ensures Tokens(p, all) == Tokens(p, a) + Tokens(p, b)
  {
    TokensConcat(p, a, b);
  }

  lemma OneMemberToken(p: Profile, m: string)
    requires MemberToken(p, m) != ""
    ensures Tokens(p, [m]) == [MemberToken(p, m)]
  {
    assert [m][..0] == [] && Tokens(p, []) == [];
  }

  /** The cron's list falls back to that member: to WAN for direct, to a blackhole for block. */
  lemma GroupFallback(p: Profile, tag: string, g: Group, k: nat)
    requires GroupByID(p.groups, tag) == Some(g) && NoDeviceLikeToken(p) && FirstBuiltin(g.members, k)
    ensures var ts := EgressMembers(p, tag);
      Fallback(ts) < |ts| && ts[Fallback(ts)] == if g.members[k] == "block" then "BLOCK" else "WAN"
  {
    var ms := g.members;
    var a, t, b := Tokens(p, ms[..k]), MemberToken(p, ms[k]), Tokens(p, ms[k + 1..]);
    TokensAround(p, ms, k);
    TunnelsOnly(p, ms[..k]);
    FallbackBehind(a, t, b);
    assert (a + ([t] + b))[|a|] == t;
  }

  /**
   So in the third run in a row that finds every tunnel of a group down, its table is given
   the WAN when the group lists direct first, and a blackhole when it lists block first.
   */
  lemma GroupFallsBack(p: Profile, tag: string, g: Group, k: nat, t: Table, rs: seq<Cron>, n: nat)
    requires GroupByID(p.groups, tag) == Some(g) && NoDeviceLikeToken(p) && FirstBuiltin(g.members, k)
    requires forall r :: r in rs ==> r.members == EgressMembers(p, tag)
    requires 0 < n <= |rs| && t.count == 0 && Streak(t, rs, n) >= 3 && rs[n - 1].wanIf != ""
    ensures After(t, rs, n).route == if g.members[k] == "block" then DropAll else Dev(rs[n - 1].wanIf)
  {
    GroupFallback(p, tag, g, k);
    assert rs[n - 1] in rs;
    ThirdRunFallsBack(t, rs, n);
  }
}
