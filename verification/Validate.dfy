/**
 `Profile.Validate` of `internal/model/validate.go`: one pass over endpoints, groups, members,
 nesting, rules and lists, each rejecting at its first problem. The checks on a single item's
 own fields (ports, link settings, protocol parameters, address syntax) are parameters.
 */
module Validate {
  import opened Profiles
  import opened GroupCycles
  import Compile

  /** The checks that look at one item alone. */
  datatype Checks = Checks(endpoint: Endpoint -> bool, rule: Rule -> bool, list: RoutingList -> bool)

  datatype Kind = IsEndpoint | IsGroup | IsRule | IsList

  predicate IsBuiltin(target: string) { Compile.Lower(target) == DIRECT || Compile.Lower(target) == BLOCK }

  // ---- what a valid profile is ----

  function EndpointIds(es: seq<Endpoint>): seq<string> { seq(|es|, i requires 0 <= i < |es| => es[i].id) }
  function GroupIds(gs: seq<Group>): seq<string> { seq(|gs|, i requires 0 <= i < |gs| => gs[i].id) }
  function RuleIds(rs: seq<Rule>): seq<string> { seq(|rs|, i requires 0 <= i < |rs| => rs[i].id) }
  function ListIds(ls: seq<RoutingList>): seq<string> { seq(|ls|, i requires 0 <= i < |ls| => ls[i].id) }

  /** Non-empty and pairwise different. */
  ghost predicate Unique(ids: seq<string>) {
    "" !in ids && forall i, j :: 0 <= i < j < |ids| ==> ids[i] != ids[j]
  }

  function AllIds(p: Profile): seq<string> {
    EndpointIds(p.endpoints) + GroupIds(p.groups) + RuleIds(p.rules) + ListIds(p.lists)
  }

  /** An enabled endpoint or any group. */
  ghost predicate Usable(p: Profile, t: string) {
    || (exists e :: e in p.endpoints && e.id == t && e.enabled)
    || t in GroupIds(p.groups)
  }

  ghost predicate MemberOk(p: Profile, g: Group, m: string) {
    m == DIRECT || (m != BLOCK && m != g.id && Usable(p, m))
  }

  ghost predicate GroupOk(p: Profile, g: Group) {
    g.members != [] && forall m :: m in g.members ==> MemberOk(p, g, m)
  }

  /** Group `a` lists group `b` as a member. */
  ghost predicate Nests(gs: seq<Group>, a: string, b: string) {
    b in GroupIds(gs) && exists g :: g in gs && g.id == a && b in g.members
  }

  ghost predicate NestingCycle(gs: seq<Group>, ns: seq<string>) {
    |ns| > 1 && ns[0] == ns[|ns| - 1] && forall i :: 0 <= i < |ns| - 1 ==> Nests(gs, ns[i], ns[i + 1])
  }

  ghost predicate TargetOk(p: Profile, t: string) { IsBuiltin(t) || Usable(p, t) }

  ghost predicate RuleOk(c: Checks, p: Profile, r: Rule) {
    r.disabled || ((r.isDefault || c.rule(r)) && TargetOk(p, r.outbound))
  }

  predicate ActiveDefault(r: Rule) { r.isDefault && !r.disabled }

  ghost predicate ListOk(c: Checks, p: Profile, l: RoutingList) {
    c.list(l) && TargetOk(p, l.outbound) && (l.downloadVia == "" || TargetOk(p, l.downloadVia))
  }

  /** Structural integrity, as one statement about the profile. */
  ghost predicate Valid(c: Checks, p: Profile) {
    && Unique(AllIds(p))
    && (forall e :: e in p.endpoints ==> c.endpoint(e))
    && (forall g :: g in p.groups ==> GroupOk(p, g))
    && (forall ns :: !NestingCycle(p.groups, ns))
    && (forall r :: r in p.rules ==> RuleOk(c, p, r))
    && (forall i, j :: 0 <= i < j < |p.rules| ==> !(ActiveDefault(p.rules[i]) && ActiveDefault(p.rules[j])))
    && (forall l :: l in p.lists ==> ListOk(c, p, l))
  }

  // ---- id registration ----

  type Registry = map<string, Kind>

  /** The ids in the first `n` places of a list. */
  ghost function IdsTo(all: seq<string>, n: nat): set<string>
    requires n <= |all|
  {
    if n == 0 then {} else IdsTo(all, n - 1) + {all[n - 1]}
  }

  lemma {:induction false} IdsToAre(all: seq<string>, n: nat)
    requires n <= |all|
    ensures forall x :: x in IdsTo(all, n) <==> exists k :: 0 <= k < n && all[k] == x
  {
    if n > 0 { IdsToAre(all, n - 1); }
  }

  /** An id that is non-empty and registered neither before this list nor earlier in it. */
  ghost predicate NewAt(seen: set<string>, all: seq<string>, k: nat)
    requires k < |all|
  {
    all[k] != "" && all[k] !in seen && all[k] !in IdsTo(all, k)
  }

  ghost predicate AllNew(seen: set<string>, all: seq<string>, n: nat)
    requires n <= |all|
  {
    forall k :: 0 <= k < n ==> NewAt(seen, all, k)
  }

  lemma AllNewNext(seen: set<string>, all: seq<string>, i: nat)
    requires i < |all| && AllNew(seen, all, i)
    ensures NewAt(seen, all, i) ==> AllNew(seen, all, i + 1)
    ensures !NewAt(seen, all, i) ==> !AllNew(seen, all, |all|)
  {}

  /** Two lists registered one after the other are unique together exactly when each is new in its turn. */
  lemma UniqueConcat(a: seq<string>, b: seq<string>)
    ensures Unique(a + b) <==> Unique(a) && AllNew(IdsTo(a, |a|), b, |b|)
  {
    var c := a + b;
    assert forall x :: x in c <==> x in a || x in b;
    IdsToAre(a, |a|);
    forall k | 0 <= k < |b| ensures forall x :: x in IdsTo(b, k) <==> exists i :: 0 <= i < k && b[i] == x {
      IdsToAre(b, k);
    }
    if Unique(c) {
      forall i, j | 0 <= i < j < |a| ensures a[i] != a[j] { assert c[i] == a[i] && c[j] == a[j]; }
      forall k | 0 <= k < |b| ensures NewAt(IdsTo(a, |a|), b, k) {
        assert c[|a| + k] == b[k];
        forall i | 0 <= i < |a| ensures a[i] != b[k] { assert c[i] == a[i]; }
        forall i | 0 <= i < k ensures b[i] != b[k] { assert c[|a| + i] == b[i]; }
      }
    }
    if Unique(a) && AllNew(IdsTo(a, |a|), b, |b|) {
      forall i, j | 0 <= i < j < |c| ensures c[i] != c[j] {
        if j >= |a| {
          assert NewAt(IdsTo(a, |a|), b, j - |a|);
          if i < |a| { assert a[i] in IdsTo(a, |a|); } else { assert b[i - |a|] in IdsTo(b, j - |a|); }
        }
      }
      forall k | 0 <= k < |b| ensures b[k] != "" { assert NewAt(IdsTo(a, |a|), b, k); }
    }
  }

  /** The empty and duplicate id checks, then the registration of one more id. */
  method AddId(ids0: Registry, id: string, kind: Kind, ghost seen: set<string>, ghost all: seq<string>, ghost i: nat)
    returns (ok: bool, ids: Registry)
    requires i < |all| && id == all[i] && ids0.Keys == seen + IdsTo(all, i)
    requires AllNew(seen, all, i)
    ensures ok ==> AllNew(seen, all, i + 1)
    ensures !ok ==> !AllNew(seen, all, |all|)
    ensures ok ==> ids == ids0[id := kind] && id !in ids0 && ids.Keys == seen + IdsTo(all, i + 1)
  {
    AllNewNext(seen, all, i);
    if id == "" || id in ids0 {
      return false, ids0;
    }
    ids := ids0[id := kind];
    ok := true;
  }

  method RegisterEndpoints(c: Checks, es: seq<Endpoint>) returns (ok: bool, ids: Registry, enabled: map<string, bool>)
    ensures ok <==> AllNew({}, EndpointIds(es), |es|) && EndpointsTo(c, es, |es|)
    ensures ok ==> ids.Keys == IdsTo(EndpointIds(es), |es|) && forall x :: x in ids ==> ids[x] == IsEndpoint
    ensures ok ==> forall t :: (t in enabled && enabled[t]) <==> EnabledIn(es, |es|, t)
    ensures ok ==> enabled.Keys == ids.Keys
  {
    ids, enabled := map[], map[];
    ghost var all := EndpointIds(es);
    for i := 0 to |es|
      invariant AllNew({}, all, i) && ids.Keys == {} + IdsTo(all, i) && forall x :: x in ids ==> ids[x] == IsEndpoint
      invariant enabled.Keys == ids.Keys && EndpointsTo(c, es, i)
      invariant forall t :: (t in enabled && enabled[t]) <==> EnabledIn(es, i, t)
    {
      var e := es[i];
      ok, ids := AddId(ids, e.id, IsEndpoint, {}, all, i);
      if !ok {
        return;
      }
      if !c.endpoint(e) {
        return false, ids, enabled;
      }
      EnabledNext(es, i, enabled);
      enabled := enabled[e.id := e.enabled];
    }
    ok := true;
  }

  ghost predicate EndpointsTo(c: Checks, es: seq<Endpoint>, n: nat)
    requires n <= |es|
  {
    forall k :: 0 <= k < n ==> c.endpoint(es[k])
  }

  /** One of the first `n` endpoints has that id and is enabled. */
  ghost predicate EnabledIn(es: seq<Endpoint>, n: nat, t: string)
    requires n <= |es|
  {
    exists k :: 0 <= k < n && es[k].id == t && es[k].enabled
  }

  /** Recording one more endpoint under an id not seen before. */
  lemma EnabledNext(es: seq<Endpoint>, i: nat, enabled: map<string, bool>)
    requires i < |es| && es[i].id !in enabled
    requires forall t :: (t in enabled && enabled[t]) <==> EnabledIn(es, i, t)
    ensures var n := enabled[es[i].id := es[i].enabled]; forall t :: (t in n && n[t]) <==> EnabledIn(es, i + 1, t)
  {}

  method RegisterGroups(gs: seq<Group>, ids0: Registry, enabled0: map<string, bool>)
    returns (ok: bool, ids: Registry, enabled: map<string, bool>)
    requires enabled0.Keys == ids0.Keys && forall x :: x in ids0 ==> ids0[x] == IsEndpoint
    ensures ok <==> AllNew(ids0.Keys, GroupIds(gs), |gs|) && GroupsTo(gs, |gs|)
    ensures ok ==> ids.Keys == ids0.Keys + IdsTo(GroupIds(gs), |gs|) && enabled.Keys == ids.Keys
    ensures ok ==> forall x :: x in ids && ids[x] == IsGroup <==> x in IdsTo(GroupIds(gs), |gs|)
    ensures ok ==> forall t :: (t in enabled && enabled[t])
                     <==> (t in enabled0 && enabled0[t]) || t in IdsTo(GroupIds(gs), |gs|)
  {
    ids, enabled := ids0, enabled0;
    ghost var all := GroupIds(gs);
    for i := 0 to |gs|
      invariant AllNew(ids0.Keys, all, i) && ids.Keys == ids0.Keys + IdsTo(all, i) && enabled.Keys == ids.Keys
      invariant forall x :: x in ids && ids[x] == IsGroup <==> x in IdsTo(all, i)
      invariant forall t :: (t in enabled && enabled[t]) <==> (t in enabled0 && enabled0[t]) || t in IdsTo(all, i)
      invariant GroupsTo(gs, i)
    {
      var g := gs[i];
      ok, ids := AddId(ids, g.id, IsGroup, ids0.Keys, all, i);
      if !ok {
        return;
      }
      if g.members == [] {
        return false, ids, enabled;
      }
      enabled := enabled[g.id := true];
    }
    ok := true;
  }

  ghost predicate GroupsTo(gs: seq<Group>, n: nat)
    requires n <= |gs|
  {
    forall k :: 0 <= k < n ==> gs[k].members != []
  }

  // ---- members and nesting ----

  lemma IdsToAll(all: seq<string>)
    ensures forall x :: x in IdsTo(all, |all|) <==> x in all
  {
    IdsToAre(all, |all|);
  }

  lemma TellsAll(p: Profile, enabled: map<string, bool>)
    requires forall t :: (t in enabled && enabled[t]) <==>
      EnabledIn(p.endpoints, |p.endpoints|, t) || t in IdsTo(GroupIds(p.groups), |p.groups|)
    ensures Tells(p, enabled)
  {
    IdsToAll(GroupIds(p.groups));
    forall t ensures EnabledIn(p.endpoints, |p.endpoints|, t)
      <==> exists e :: e in p.endpoints && e.id == t && e.enabled {
      if EnabledIn(p.endpoints, |p.endpoints|, t) {
        var k :| 0 <= k < |p.endpoints| && p.endpoints[k].id == t && p.endpoints[k].enabled;
        assert p.endpoints[k] in p.endpoints;
      }
    }
  }

  /** The `enabled` map says which targets are usable. */
  ghost predicate Tells(p: Profile, enabled: map<string, bool>) {
    forall t :: (t in enabled && enabled[t]) <==> Usable(p, t)
  }

  method CheckMembers(p: Profile, ids: Registry, enabled: map<string, bool>) returns (ok: bool)
    requires Tells(p, enabled) && enabled.Keys == ids.Keys
    ensures ok <==> forall g :: g in p.groups ==> forall m :: m in g.members ==> MemberOk(p, g, m)
  {
    for i := 0 to |p.groups|
      invariant forall k :: 0 <= k < i ==> forall m :: m in p.groups[k].members ==> MemberOk(p, p.groups[k], m)
    {
      var g := p.groups[i];
      assert g in p.groups;
      for j := 0 to |g.members|
        invariant forall k :: 0 <= k < j ==> MemberOk(p, g, g.members[k])
      {
        var m := g.members[j];
        assert m in g.members;
        if m != DIRECT {
          if m == BLOCK || m !in ids || m == g.id || !enabled[m] {
            assert !MemberOk(p, g, m);
            return false;
          }
        }
      }
    }
    ok := true;
  }

  /** The group-to-group edges, built as `groupAdj` is. */
  method Adjacency(gs: seq<Group>, ids: Registry) returns (adj: Graph)
    requires forall x :: x in ids && ids[x] == IsGroup <==> x in GroupIds(gs)
    ensures forall a, b :: Edge(adj, a, b) <==> Nests(gs, a, b)
    ensures forall a :: a in adj ==> a in GroupIds(gs)
  {
    adj := map[];
    for i := 0 to |gs|
      invariant forall a, b :: Edge(adj, a, b) <==> NestsIn(gs, i, a, b)
      invariant forall a :: a in adj ==> a in GroupIds(gs)
    {
      var g := gs[i];
      ghost var was := adj;
      assert g.id == GroupIds(gs)[i];
      for j := 0 to |g.members|
        invariant forall a, b :: Edge(adj, a, b)
                    <==> Edge(was, a, b) || (a == g.id && b in g.members[..j] && b in GroupIds(gs))
        invariant forall a :: a in adj ==> a in GroupIds(gs)
      {
        var m := g.members[j];
        assert g.members[..j + 1] == g.members[..j] + [m];
        if m in ids && ids[m] == IsGroup {
          adj := adj[g.id := (if g.id in adj then adj[g.id] else []) + [m]];
        }
      }
      assert g.members[..|g.members|] == g.members;
    }
    assert forall a, b :: NestsIn(gs, |gs|, a, b) <==> Nests(gs, a, b);
  }

  /** `Nests` through the first `n` groups. */
  ghost predicate NestsIn(gs: seq<Group>, n: nat, a: string, b: string)
    requires n <= |gs|
  {
    b in GroupIds(gs) && exists k :: 0 <= k < n && gs[k].id == a && b in gs[k].members
  }

  lemma CyclesMatch(gs: seq<Group>, adj: Graph)
    requires forall a, b :: Edge(adj, a, b) <==> Nests(gs, a, b)
    ensures HasCycle(adj) <==> exists ns :: NestingCycle(gs, ns)
  {
    forall ns ensures IsCycle(adj, ns) <==> NestingCycle(gs, ns) {
      if IsCycle(adj, ns) {
        forall i | 0 <= i < |ns| - 1 ensures Nests(gs, ns[i], ns[i + 1]) { assert Edge(adj, ns[i], ns[i + 1]); }
      }
      if NestingCycle(gs, ns) {
        forall i | 0 <= i < |ns| - 1 ensures Edge(adj, ns[i], ns[i + 1]) { assert Nests(gs, ns[i], ns[i + 1]); }
      }
    }
  }

  method CheckNesting(gs: seq<Group>, ids: Registry) returns (ok: bool)
    requires forall x :: x in ids && ids[x] == IsGroup <==> x in GroupIds(gs)
    ensures ok <==> forall ns :: !NestingCycle(gs, ns)
  {
    var adj := Adjacency(gs, ids);
    ok := CheckCycles(GroupIds(gs), adj);
    CyclesMatch(gs, adj);
  }

  // ---- rules and lists ----

  /** `isResolvable` together with the enabled check. */
  method ResolvesEnabled(p: Profile, t: string, ids: Registry, enabled: map<string, bool>) returns (ok: bool)
    requires Tells(p, enabled) && enabled.Keys <= ids.Keys
    ensures ok <==> TargetOk(p, t)
  {
    if IsBuiltin(t) {
      return true;
    }
    if t !in ids {
      return false;
    }
    return t in enabled && enabled[t];
  }

  method CheckRule(c: Checks, p: Profile, r: Rule, ids: Registry, enabled: map<string, bool>) returns (ok: bool)
    requires Tells(p, enabled) && enabled.Keys <= ids.Keys
    ensures ok <==> RuleOk(c, p, r)
  {
    if r.disabled {
      return true;
    }
    if !r.isDefault && !c.rule(r) {
      return false;
    }
    ok := ResolvesEnabled(p, r.outbound, ids, enabled);
  }

  function Defaults(rs: seq<Rule>, n: nat): nat
    requires n <= |rs|
  {
    if n == 0 then 0 else Defaults(rs, n - 1) + if ActiveDefault(rs[n - 1]) then 1 else 0
  }

  lemma {:induction false} AtMostOneDefault(rs: seq<Rule>, n: nat)
    requires n <= |rs|
    ensures Defaults(rs, n) == 0 <==> forall i :: 0 <= i < n ==> !ActiveDefault(rs[i])
    ensures Defaults(rs, n) <= 1 <==> forall i, j :: 0 <= i < j < n ==> !(ActiveDefault(rs[i]) && ActiveDefault(rs[j]))
  {
    if n > 0 {
      AtMostOneDefault(rs, n - 1);
      if ActiveDefault(rs[n - 1]) && Defaults(rs, n - 1) > 0 {
        var i :| 0 <= i < n - 1 && ActiveDefault(rs[i]);
        assert !(forall i, j :: 0 <= i < j < n ==> !(ActiveDefault(rs[i]) && ActiveDefault(rs[j])));
      }
    }
  }

  ghost predicate RulesTo(c: Checks, p: Profile, n: nat)
    requires n <= |p.rules|
  {
    forall k :: 0 <= k < n ==> RuleOk(c, p, p.rules[k])
  }

  lemma RulesAll(c: Checks, p: Profile)
    ensures RulesTo(c, p, |p.rules|) <==> forall r :: r in p.rules ==> RuleOk(c, p, r)
  {
    if RulesTo(c, p, |p.rules|) {
      forall r | r in p.rules ensures RuleOk(c, p, r) {
        var k :| 0 <= k < |p.rules| && p.rules[k] == r;
      }
    } else {
      var k :| 0 <= k < |p.rules| && !RuleOk(c, p, p.rules[k]);
      assert p.rules[k] in p.rules;
    }
  }

  method CheckRules(c: Checks, p: Profile, ids0: Registry, enabled: map<string, bool>) returns (ok: bool, ids: Registry)
    requires Tells(p, enabled) && enabled.Keys <= ids0.Keys
    ensures ok <==>
      AllNew(ids0.Keys, RuleIds(p.rules), |p.rules|) && RulesTo(c, p, |p.rules|) && Defaults(p.rules, |p.rules|) <= 1
    ensures ok ==> ids.Keys == ids0.Keys + IdsTo(RuleIds(p.rules), |p.rules|)
  {
    ids := ids0;
    var defaults := 0;
    ghost var all := RuleIds(p.rules);
    for i := 0 to |p.rules|
      invariant AllNew(ids0.Keys, all, i) && ids.Keys == ids0.Keys + IdsTo(all, i)
      invariant RulesTo(c, p, i) && defaults == Defaults(p.rules, i)
    {
      var r := p.rules[i];
      ok, ids := AddId(ids, r.id, IsRule, ids0.Keys, all, i);
      if !ok {
        return;
      }
      if ActiveDefault(r) { defaults := defaults + 1; }
      ok := CheckRule(c, p, r, ids, enabled);
      if !ok {
        return;
      }
    }
    ok := defaults <= 1;
  }

  method CheckList(c: Checks, p: Profile, l: RoutingList, ids: Registry, enabled: map<string, bool>) returns (ok: bool)
    requires Tells(p, enabled) && enabled.Keys <= ids.Keys
    ensures ok <==> ListOk(c, p, l)
  {
    if !c.list(l) {
      return false;
    }
    ok := ResolvesEnabled(p, l.outbound, ids, enabled);
    if ok && l.downloadVia != "" { ok := ResolvesEnabled(p, l.downloadVia, ids, enabled); }
  }

  ghost predicate ListsTo(c: Checks, p: Profile, n: nat)
    requires n <= |p.lists|
  {
    forall k :: 0 <= k < n ==> ListOk(c, p, p.lists[k])
  }

  method CheckLists(c: Checks, p: Profile, ids0: Registry, enabled: map<string, bool>) returns (ok: bool)
    requires Tells(p, enabled) && enabled.Keys <= ids0.Keys
    ensures ok <==> AllNew(ids0.Keys, ListIds(p.lists), |p.lists|) && ListsTo(c, p, |p.lists|)
  {
    var ids := ids0;
    ghost var all := ListIds(p.lists);
    for i := 0 to |p.lists|
      invariant AllNew(ids0.Keys, all, i) && ids.Keys == ids0.Keys + IdsTo(all, i) && ListsTo(c, p, i)
    {
      var l := p.lists[i];
      ok, ids := AddId(ids, l.id, IsList, ids0.Keys, all, i);
      if !ok {
        return;
      }
      ok := CheckList(c, p, l, ids, enabled);
      if !ok {
        return;
      }
    }
    ok := true;
  }

  lemma ListsAll(c: Checks, p: Profile)
    ensures ListsTo(c, p, |p.lists|) <==> forall l :: l in p.lists ==> ListOk(c, p, l)
  {
    if ListsTo(c, p, |p.lists|) {
      forall l | l in p.lists ensures ListOk(c, p, l) {
        var k :| 0 <= k < |p.lists| && p.lists[k] == l;
      }
    } else {
      var k :| 0 <= k < |p.lists| && !ListOk(c, p, p.lists[k]);
      assert p.lists[k] in p.lists;
    }
  }

  lemma EndpointsAll(c: Checks, p: Profile)
    ensures EndpointsTo(c, p.endpoints, |p.endpoints|) <==> forall e :: e in p.endpoints ==> c.endpoint(e)
    ensures GroupsTo(p.groups, |p.groups|) <==> forall g :: g in p.groups ==> g.members != []
  {
    if !EndpointsTo(c, p.endpoints, |p.endpoints|) {
      var k :| 0 <= k < |p.endpoints| && !c.endpoint(p.endpoints[k]);
      assert p.endpoints[k] in p.endpoints;
    }
    if !GroupsTo(p.groups, |p.groups|) {
      var k :| 0 <= k < |p.groups| && p.groups[k].members == [];
      assert p.groups[k] in p.groups;
    }
  }

  /** The ids are unique exactly when each kind is new after the kinds registered before it. */
  lemma UniqueInTurn(p: Profile)
    ensures var e, g, r, l := EndpointIds(p.endpoints), GroupIds(p.groups), RuleIds(p.rules), ListIds(p.lists);
      var es, gs, rs := IdsTo(e, |e|), IdsTo(g, |g|), IdsTo(r, |r|);
      Unique(AllIds(p)) <==>
      AllNew({}, e, |e|) && AllNew(es, g, |g|) && AllNew(es + gs, r, |r|) && AllNew(es + gs + rs, l, |l|)
  {
    var e, g, r, l := EndpointIds(p.endpoints), GroupIds(p.groups), RuleIds(p.rules), ListIds(p.lists);
    UniqueConcat([], e);
    assert [] + e == e && IdsTo([], 0) == {};
    UniqueConcat(e, g);
    UniqueConcat(e + g, r);
    UniqueConcat(e + g + r, l);
    IdsToConcat(e, g);
    IdsToConcat(e + g, r);
  }

  lemma IdsToConcat(a: seq<string>, b: seq<string>)
    ensures IdsTo(a + b, |a + b|) == IdsTo(a, |a|) + IdsTo(b, |b|)
  {
    IdsToAll(a + b);
    IdsToAll(a);
    IdsToAll(b);
  }

  /** `Valid` in the order the check establishes it. */
  ghost predicate Staged(c: Checks, p: Profile) {
    var e, g, r, l := EndpointIds(p.endpoints), GroupIds(p.groups), RuleIds(p.rules), ListIds(p.lists);
    var es, gs, rs := IdsTo(e, |e|), IdsTo(g, |g|), IdsTo(r, |r|);
    && AllNew({}, e, |e|) && EndpointsTo(c, p.endpoints, |p.endpoints|)
    && AllNew(es, g, |g|) && GroupsTo(p.groups, |p.groups|)
    && (forall g :: g in p.groups ==> forall m :: m in g.members ==> MemberOk(p, g, m))
    && (forall ns :: !NestingCycle(p.groups, ns))
    && AllNew(es + gs, r, |r|) && RulesTo(c, p, |p.rules|) && Defaults(p.rules, |p.rules|) <= 1
    && AllNew(es + gs + rs, l, |l|) && ListsTo(c, p, |p.lists|)
  }

  lemma StagedIsValid(c: Checks, p: Profile)
    ensures Staged(c, p) <==> Valid(c, p)
  {
    UniqueInTurn(p);
    EndpointsAll(c, p);
    RulesAll(c, p);
    ListsAll(c, p);
    AtMostOneDefault(p.rules, |p.rules|);
  }

  /** The whole check accepts exactly the structurally valid profiles. */
  method ValidateProfile(c: Checks, p: Profile) returns (ok: bool)
    ensures ok <==> Valid(c, p)
  {
    StagedIsValid(c, p);
    ok := RunStages(c, p);
  }

  method RunStages(c: Checks, p: Profile) returns (ok: bool)
    ensures ok <==> Staged(c, p)
  {
    IdsToAll(GroupIds(p.groups));
    var ids, enabled;
    ok, ids, enabled := RegisterEndpoints(c, p.endpoints);
    if !ok {
      return;
    }
    ok, ids, enabled := RegisterGroups(p.groups, ids, enabled);
    if !ok {
      return;
    }
    TellsAll(p, enabled);
    ok := CheckMembers(p, ids, enabled);
    if !ok {
      return;
    }
    ok := CheckNesting(p.groups, ids);
    if !ok {
      return;
    }
    ok, ids := CheckRules(c, p, ids, enabled);
    if !ok {
      return;
    }
    ok := CheckLists(c, p, ids, enabled);
  }
}
