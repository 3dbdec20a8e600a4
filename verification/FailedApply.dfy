/**
 What `Apply` leaves behind when a tunnel of the plan is down, and where that parts from the
 script of the other plane: `RenderIP`'s commands stop at the first error
 (`internal/pbr/apply.go`), while `RenderIPScript` goes on (`internal/pbr/render_ipset.go`).
 */
module FailedApply {
  import opened Sorting
  import opened Cidr
  import opened Profiles
  import opened Compile
  import opened Datapath
  import opened PolicyRouting
  import opened Sequences
  import opened ApplyTeardown
  import opened PlaneEquivalence
  import opened KillSwitch
  import Nftables

  /** The first egress, in installation order, whose tunnel is down. */
  ghost predicate FirstDown(pl: Plan, k: Kernel, i: nat) {
    && i < |NonWan(pl)| && NonWan(pl)[i].kind == Tunnel && NonWan(pl)[i].iface !in k.links
    && forall j :: 0 <= j < i && NonWan(pl)[j].kind == Tunnel ==> NonWan(pl)[j].iface in k.links
  }

  lemma {:induction false} DownHasFirst(pl: Plan, k: Kernel, n: nat) returns (i: nat)
    requires n < |NonWan(pl)| && NonWan(pl)[n].kind == Tunnel && NonWan(pl)[n].iface !in k.links
    ensures FirstDown(pl, k, i)
  {
    if j: nat :| j < n && NonWan(pl)[j].kind == Tunnel && NonWan(pl)[j].iface !in k.links {
      i := DownHasFirst(pl, k, j);
    } else {
      i := n;
    }
  }

  function RuleCmds(pl: Plan, o: Options, i: nat): seq<Cmd>
    requires i < |NonWan(pl)|
  {
    var r := FwRule(pl.mask, o.rulePref, i, NonWan(pl)[i]);
    [RuleAdd(false, r)] + If6(HasV6(pl), RuleAdd(true, r))
  }

  function Stem(pl: Plan, o: Options, i: nat): seq<Cmd>
    requires i <= |NonWan(pl)|
  {
    ExcludeAdds(o.rulePref, HasV6(pl)) + EachEgress(pl.mask, o.rulePref, HasV6(pl), NonWan(pl)[..i])
  }

  /** The commands that succeed: everything before the egress, and its own rules. */
  function Done(pl: Plan, o: Options, i: nat): seq<Cmd>
    requires i < |NonWan(pl)|
  {
    Stem(pl, o, i) + RuleCmds(pl, o, i)
  }

  function DownCmd(pl: Plan, i: nat): Cmd
    requires i < |NonWan(pl)|
  {
    RouteReplace(false, NonWan(pl)[i].table, None, Dev(NonWan(pl)[i].iface))
  }

  lemma EachLast(mask: Word, pref: int, six: bool, es: seq<Egress>)
    requires es != []
    ensures var n := |es| - 1;
      EachEgress(mask, pref, six, es) == EachEgress(mask, pref, six, es[..n]) + EgressCmds(mask, pref, six, n, es[n])
  {}

  lemma {:induction false} EachSplit(mask: Word, pref: int, six: bool, es: seq<Egress>, i: nat) returns (rest: seq<Cmd>)
    requires i < |es|
    ensures EachEgress(mask, pref, six, es) ==
      EachEgress(mask, pref, six, es[..i]) + EgressCmds(mask, pref, six, i, es[i]) + rest
  {
    var n := |es| - 1;
    EachLast(mask, pref, six, es);
    if i == n {
      rest := [];
    } else {
      assert es[..n][..i] == es[..i] && es[..n][i] == es[i];
      var r := EachSplit(mask, pref, six, es[..n], i);
      var last := EgressCmds(mask, pref, six, n, es[n]);
      Concat4(EachEgress(mask, pref, six, es[..i]), EgressCmds(mask, pref, six, i, es[i]), r, last);
      rest := r + last;
    }
  }

  lemma RouteHead(six: bool, e: Egress) returns (rest: seq<Cmd>)
    requires e.kind == Tunnel
    ensures RouteCmds(six, e) == [RouteReplace(false, e.table, None, Dev(e.iface))] + rest
  {
    rest := RouteCmds(six, e)[1..];
  }

  lemma EgressHead(mask: Word, pref: int, six: bool, i: nat, e: Egress)
    ensures var r := FwRule(mask, pref, i, e);
      EgressCmds(mask, pref, six, i, e) == ([RuleAdd(false, r)] + If6(six, RuleAdd(true, r))) + RouteCmds(six, e)
  {}

  lemma InstallSplit(pl: Plan, o: Options, i: nat) returns (rest: seq<Cmd>)
    requires i < |NonWan(pl)| && NonWan(pl)[i].kind == Tunnel
    ensures InstallCmds(pl, o) == Done(pl, o, i) + [DownCmd(pl, i)] + rest
  {
    var six, es := HasV6(pl), NonWan(pl);
    var tail := EachSplit(pl.mask, o.rulePref, six, es, i);
    var more := RouteHead(six, es[i]);
    EgressHead(pl.mask, o.rulePref, six, i, es[i]);
    rest := more + tail;
    Concat6(ExcludeAdds(o.rulePref, six), EachEgress(pl.mask, o.rulePref, six, es[..i]), RuleCmds(pl, o, i),
            [DownCmd(pl, i)], more, tail);
    InstallParts(pl, o);
  }

  lemma InstallParts(pl: Plan, o: Options)
    ensures InstallCmds(pl, o) ==
      ExcludeAdds(o.rulePref, HasV6(pl)) + EachEgress(pl.mask, o.rulePref, HasV6(pl), NonWan(pl))
  {}

  lemma {:induction false} DoneHops(pl: Plan, o: Options, k: Kernel, i: nat)
    requires FirstDown(pl, k, i)
    ensures forall c :: c in Done(pl, o, i) ==> c.RuleAdd? || (c.RouteReplace? && HopOk(k, c.hop))
  {
    var es := NonWan(pl)[..i];
    EachEgressCmds(pl.mask, o.rulePref, HasV6(pl), es);
    forall c | c in EachEgress(pl.mask, o.rulePref, HasV6(pl), es)
      ensures c.RuleAdd? || (c.RouteReplace? && HopOk(k, c.hop))
    {
      var j :| 0 <= j < |es| && c in EgressCmds(pl.mask, o.rulePref, HasV6(pl), j, es[j]);
      EgressHops(pl.mask, o.rulePref, HasV6(pl), j, es[j]);
    }
  }

  lemma EgressHops(mask: Word, pref: int, six: bool, i: nat, e: Egress)
    ensures forall c :: c in EgressCmds(mask, pref, six, i, e) ==>
      c.RuleAdd? || (c.RouteReplace? && (c.hop.Dev? ==> e.kind == Tunnel && c.hop.iface == e.iface))
  {}

  lemma AddsOfPrefix(a: seq<Cmd>, b: seq<Cmd>, k: Kernel)
    requires forall v6 :: Distinct(AddsOf(a + b, v6)) && forall r :: r in AddsOf(a + b, v6) ==> r !in Rules(k, v6)
    ensures forall v6 :: Distinct(AddsOf(a, v6)) && forall r :: r in AddsOf(a, v6) ==> r !in Rules(k, v6)
  {
    forall v6 ensures Distinct(AddsOf(a, v6)) && forall r :: r in AddsOf(a, v6) ==> r !in Rules(k, v6) {
      AddsOfConcat(a, b, v6);
      PartOfDistinct(AddsOf(a, v6), AddsOf(b, v6), Rules(k, v6));
    }
  }

  lemma PartOfDistinct(x: seq<IpRule>, y: seq<IpRule>, rs: seq<IpRule>)
    requires Distinct(x + y) && forall r :: r in x + y ==> r !in rs
    ensures Distinct(x) && forall r :: r in x ==> r !in rs
  {
    assert forall i :: 0 <= i < |x| ==> (x + y)[i] == x[i];
    forall r | r in x ensures r !in rs { assert r in x + y; }
  }

  /** `Apply` stops right after that egress's rules. */
  lemma StopsAt(pl: Plan, o: Options, base: Kernel, i: nat)
    requires FreeOf(pl, o, base) && Nftables.Loads(Nftables.Chain(pl)) && FirstDown(pl, base, i)
    ensures ApplyResult(pl, o, base) == Ran(ExecAll(Exec(base, LoadCmd(pl)).k, Done(pl, o, i)), false)
  {
    var loaded, done, down := Exec(base, LoadCmd(pl)).k, Done(pl, o, i), DownCmd(pl, i);
    ClearedStart(pl, o, base);
    var rest := InstallSplit(pl, o, i);
    assert InstallCmds(pl, o) == done + ([down] + rest);
    DoneRuns(pl, o, loaded, i, [down] + rest);
    FailsAfter(loaded, done, down, rest);
    LoadedRuns(pl, o, base);
  }

  lemma LoadedRuns(pl: Plan, o: Options, base: Kernel)
    requires FreeOf(pl, o, base) && Nftables.Loads(Nftables.Chain(pl))
    ensures ApplyResult(pl, o, base) == RunUntil(Exec(base, LoadCmd(pl)).k, InstallCmds(pl, o))
  {
    ClearedStart(pl, o, base);
  }

  /** Everything before the tunnel that is down succeeds, and its own route does not. */
  lemma DoneRuns(pl: Plan, o: Options, k: Kernel, i: nat, rest: seq<Cmd>)
    requires FreeOf(pl, o, k) && FirstDown(pl, k, i) && InstallCmds(pl, o) == Done(pl, o, i) + rest
    ensures RunUntil(k, Done(pl, o, i)) == Ran(ExecAll(k, Done(pl, o, i)), true)
    ensures Exec(ExecAll(k, Done(pl, o, i)), DownCmd(pl, i)) == Ran(ExecAll(k, Done(pl, o, i)), false)
  {
    FreshAdds(pl, o, k);
    AddsOfPrefix(Done(pl, o, i), rest, k);
    DoneHops(pl, o, k, i);
    DistinctAddsSucceed(k, Done(pl, o, i));
    ExecFolds(k, Done(pl, o, i), false, 0);
  }

  /** A run stops at the first command that fails. */
  lemma FailsAfter(k: Kernel, done: seq<Cmd>, c: Cmd, rest: seq<Cmd>)
    requires RunUntil(k, done).ok && !Exec(RunUntil(k, done).k, c).ok
    ensures RunUntil(k, done + ([c] + rest)) == Exec(RunUntil(k, done).k, c)
  {
    var cs := done + ([c] + rest);
    assert cs[..|done| + 1] == done + [c] && (done + [c])[..|done|] == done;
    FailsThrough(k, cs, |done| + 1);
  }

  /** The three ways an `Apply` from a free state ends. */
  lemma ApplyOutcomes(pl: Plan, o: Options, base: Kernel)
    requires FreeOf(pl, o, base)
    ensures Refused(pl, o, base) || Complete(pl, o, base) || exists i :: StoppedAt(pl, o, base, i)
  {
    if !Nftables.Loads(Nftables.Chain(pl)) {
      RefusedLoad(pl, o, base);
    } else if LinksUp(pl, base) {
      Completes(pl, o, base);
    } else {
      DownStops(pl, o, base);
    }
  }

  lemma Completes(pl: Plan, o: Options, base: Kernel)
    requires FreeOf(pl, o, base) && Nftables.Loads(Nftables.Chain(pl)) && LinksUp(pl, base)
    ensures Complete(pl, o, base)
  {
    ApplySucceedsIff(pl, o, base);
    var r := ApplyResult(pl, o, base);
    assert r == Ran(r.k, true);
  }

  /** The ruleset does not load, and nothing changes. */
  ghost predicate Refused(pl: Plan, o: Options, base: Kernel) {
    !Nftables.Loads(Nftables.Chain(pl)) && ApplyResult(pl, o, base) == Ran(base, false)
  }

  /** Every command ran. */
  ghost predicate Complete(pl: Plan, o: Options, base: Kernel) {
    && Nftables.Loads(Nftables.Chain(pl)) && LinksUp(pl, base)
    && ApplyResult(pl, o, base) == Ran(ExecAll(Exec(base, LoadCmd(pl)).k, InstallCmds(pl, o)), true)
  }

  lemma DownStops(pl: Plan, o: Options, base: Kernel)
    requires FreeOf(pl, o, base) && Nftables.Loads(Nftables.Chain(pl)) && !LinksUp(pl, base)
    ensures exists i :: StoppedAt(pl, o, base, i)
  {
    var e :| e in NonWan(pl) && e.kind == Tunnel && e.iface !in base.links;
    var n :| 0 <= n < |NonWan(pl)| && NonWan(pl)[n] == e;
    var i := DownHasFirst(pl, base, n);
    StopsAt(pl, o, base, i);
    assert StoppedAt(pl, o, base, i);
  }

  ghost predicate StoppedAt(pl: Plan, o: Options, base: Kernel, i: nat) {
    FirstDown(pl, base, i) && ApplyResult(pl, o, base) == Ran(ExecAll(Exec(base, LoadCmd(pl)).k, Done(pl, o, i)), false)
  }

  /** The rules of one family then: those of the egresses up to and including the failing one. */
  function PartRules(pl: Plan, o: Options, base: Kernel, v6: bool, i: nat): seq<IpRule>
    requires i < |NonWan(pl)|
  {
    InFront(o, base, v6) +
      (if Routes(pl, v6) then Excludes(o.rulePref, v6) + FwRules(pl.mask, o.rulePref, NonWan(pl)[..i + 1]) else []) +
      Behind(o, base, v6)
  }

  lemma DoneFold(pl: Plan, o: Options, lo: seq<IpRule>, hi: seq<IpRule>, v6: bool, i: nat)
    requires Around(pl, o, lo, hi, v6) && i < |NonWan(pl)| && Routes(pl, v6)
    ensures RuleFold(lo + hi, Done(pl, o, i), v6) ==
      lo + Excludes(o.rulePref, v6) + FwRules(pl.mask, o.rulePref, NonWan(pl)[..i + 1]) + hi
  {
    var six, es, ex := HasV6(pl), NonWan(pl), Excludes(o.rulePref, v6);
    var part, all := es[..i + 1], FwRules(pl.mask, o.rulePref, es[..i + 1]);
    assert part[..i] == es[..i] && all[..i] == FwRules(pl.mask, o.rulePref, es[..i]);
    ExcludesRise(lo, o.rulePref, v6, pl.mask, part, hi);
    RisingLast(lo + ex, all, hi);
    ExcludeFold(o.rulePref, six, lo, hi, v6);
    EachEgressRules(lo + ex, hi, pl.mask, o.rulePref, six, es[..i], v6);
    StemFold(pl, o, lo, hi, v6, i);
    LastFold(pl, o, lo + hi, lo + ex, hi, v6, i);
  }

  /** The rules of the failing egress itself come after those of the ones before it. */
  lemma LastFold(pl: Plan, o: Options, rs: seq<IpRule>, own: seq<IpRule>, hi: seq<IpRule>, v6: bool, i: nat)
    requires i < |NonWan(pl)| && Routes(pl, v6)
    requires RuleFold(rs, Stem(pl, o, i), v6) == own + FwRules(pl.mask, o.rulePref, NonWan(pl)[..i]) + hi
    requires var all := FwRules(pl.mask, o.rulePref, NonWan(pl)[..i + 1]);
      && (forall r :: r in own + all[..i] ==> r.prio < all[i].prio) && (forall r :: r in hi ==> r.prio > all[i].prio)
    ensures RuleFold(rs, Done(pl, o, i), v6) == own + FwRules(pl.mask, o.rulePref, NonWan(pl)[..i + 1]) + hi
  {
    var all := FwRules(pl.mask, o.rulePref, NonWan(pl)[..i + 1]);
    assert all[..i] == FwRules(pl.mask, o.rulePref, NonWan(pl)[..i]) && all == all[..i] + [all[i]];
    RuleFoldConcat(rs, Stem(pl, o, i), RuleCmds(pl, o, i), v6);
    RuleCmdsFold(pl, o, own + all[..i] + hi, v6, i);
    AddBetween(own + all[..i], all[i], hi, v6);
    Concat4(own, all[..i], [all[i]], hi);
  }

  lemma StemFold(pl: Plan, o: Options, lo: seq<IpRule>, hi: seq<IpRule>, v6: bool, i: nat)
    requires i < |NonWan(pl)| && Routes(pl, v6)
    requires RuleFold(lo + hi, ExcludeAdds(o.rulePref, HasV6(pl)), v6) == lo + Excludes(o.rulePref, v6) + hi
    requires RuleFold(lo + Excludes(o.rulePref, v6) + hi,
                      EachEgress(pl.mask, o.rulePref, HasV6(pl), NonWan(pl)[..i]), v6) ==
      lo + Excludes(o.rulePref, v6) + FwRules(pl.mask, o.rulePref, NonWan(pl)[..i]) + hi
    ensures RuleFold(lo + hi, Stem(pl, o, i), v6) ==
      lo + Excludes(o.rulePref, v6) + FwRules(pl.mask, o.rulePref, NonWan(pl)[..i]) + hi
  {
    RuleFoldConcat(lo + hi, ExcludeAdds(o.rulePref, HasV6(pl)),
                   EachEgress(pl.mask, o.rulePref, HasV6(pl), NonWan(pl)[..i]), v6);
  }

  lemma RuleCmdsFold(pl: Plan, o: Options, rs: seq<IpRule>, v6: bool, i: nat)
    requires i < |NonWan(pl)| && Routes(pl, v6)
    ensures RuleFold(rs, RuleCmds(pl, o, i), v6) ==
      RuleFold(rs, [RuleAdd(v6, FwRule(pl.mask, o.rulePref, i, NonWan(pl)[i]))], v6)
  {
    var r := FwRule(pl.mask, o.rulePref, i, NonWan(pl)[i]);
    var four, more := [RuleAdd(false, r)], If6(HasV6(pl), RuleAdd(true, r));
    RuleFoldConcat(rs, four, more, v6);
    if v6 { NeutralFold(rs, four, v6); } else { NeutralFold(RuleFold(rs, four, v6), more, v6); }
  }

  lemma DoneSixNeutral(pl: Plan, o: Options, i: nat)
    requires i < |NonWan(pl)| && !HasV6(pl)
    ensures forall c :: c in Done(pl, o, i) ==> RuleNeutral(c, true)
  {
    EachNeutral(pl.mask, o.rulePref, NonWan(pl)[..i]);
    AddsNeutral(false, Excludes(o.rulePref, false), true);
  }

  lemma PartialRules(pl: Plan, o: Options, base: Kernel, k: Kernel, v6: bool, i: nat)
    requires CleanBase(pl, o, base) && i < |NonWan(pl)| && Rules(k, v6) == Rules(base, v6)
    ensures Rules(ExecAll(k, Done(pl, o, i)), v6) == PartRules(pl, o, base, v6, i)
  {
    var lo, hi := InFront(o, base, v6), Behind(o, base, v6);
    ExecFolds(k, Done(pl, o, i), v6, 0);
    CleanAround(pl, o, base, v6);
    if Routes(pl, v6) {
      DoneFold(pl, o, lo, hi, v6, i);
      Concat4(lo, Excludes(o.rulePref, v6), FwRules(pl.mask, o.rulePref, NonWan(pl)[..i + 1]), hi);
    } else {
      DoneSixNeutral(pl, o, i);
      NeutralFold(lo + hi, Done(pl, o, i), v6);
      DropEmpty(lo, [], hi);
    }
  }

  /** Its table, and those of the egresses after it, are still empty; those before it are filled. */
  lemma PartialTables(pl: Plan, o: Options, base: Kernel, k: Kernel, v6: bool, i: nat, j: nat)
    requires CleanBase(pl, o, base) && TablesDistinct(NonWan(pl)) && k.routes == base.routes && SameHost(k, base)
    requires i < |NonWan(pl)| && j < |NonWan(pl)| && Routes(pl, v6)
    ensures Table(ExecAll(k, Done(pl, o, i)), v6, NonWan(pl)[j].table) ==
      if j < i then TableRoutes(base, v6, NonWan(pl)[j]) else []
  {
    assert NonWan(pl)[j] in NonWan(pl);
    ExecFolds(k, Done(pl, o, i), v6, NonWan(pl)[j].table);
    DoneTables(pl, o, k, v6, i, j);
    HostRoutes(k, base, v6, NonWan(pl)[j]);
  }

  lemma HostRoutes(k: Kernel, base: Kernel, v6: bool, e: Egress)
    requires SameHost(k, base)
    ensures TableRoutes(k, v6, e) == TableRoutes(base, v6, e)
  {}

  lemma DoneTables(pl: Plan, o: Options, k: Kernel, v6: bool, i: nat, j: nat)
    requires TablesDistinct(NonWan(pl)) && i < |NonWan(pl)| && j < |NonWan(pl)| && Routes(pl, v6)
    ensures TableFold(k, [], Done(pl, o, i), v6, NonWan(pl)[j].table) ==
      if j < i then TableRoutes(k, v6, NonWan(pl)[j]) else []
  {
    var es, t := NonWan(pl), NonWan(pl)[j].table;
    if j < i {
      StemFills(pl, o, k, v6, i, j);
      RulesFillNothing(pl, o, k, v6, i, t);
    } else {
      EgressesNeutral(pl.mask, o.rulePref, HasV6(pl), es[..i], v6, t);
      NeutralTable(k, [], Done(pl, o, i), v6, t);
    }
  }

  lemma RulesFillNothing(pl: Plan, o: Options, k: Kernel, v6: bool, i: nat, t: int)
    requires i < |NonWan(pl)|
    ensures TableFold(k, [], Done(pl, o, i), v6, t) == TableFold(k, [], Stem(pl, o, i), v6, t)
  {
    TableFoldConcat(k, [], Stem(pl, o, i), RuleCmds(pl, o, i), v6, t);
    NeutralTable(k, TableFold(k, [], Stem(pl, o, i), v6, t), RuleCmds(pl, o, i), v6, t);
  }

  lemma StemFills(pl: Plan, o: Options, k: Kernel, v6: bool, i: nat, j: nat)
    requires TablesDistinct(NonWan(pl)) && j < i < |NonWan(pl)| && Routes(pl, v6)
    ensures TableFold(k, [], Stem(pl, o, i), v6, NonWan(pl)[j].table) == TableRoutes(k, v6, NonWan(pl)[j])
  {
    var es, six, t := NonWan(pl), HasV6(pl), NonWan(pl)[j].table;
    var part, each := es[..i], EachEgress(pl.mask, o.rulePref, six, es[..i]);
    NonWanMembers(pl);
    forall e | e in part ensures e in es {}
    assert part[j] == es[j] && es[j] in part;
    TableFoldConcat(k, [], ExcludeAdds(o.rulePref, six), each, v6, t);
    NeutralTable(k, [], ExcludeAdds(o.rulePref, six), v6, t);
    EachTable(k, [], pl.mask, o.rulePref, six, part, v6, t);
  }

  lemma {:induction false} EgressesNeutral(mask: Word, pref: int, six: bool, es: seq<Egress>, v6: bool, t: int)
    requires forall e :: e in es ==> e.table != t
    ensures forall c :: c in EachEgress(mask, pref, six, es) ==> TableNeutral(c, v6, t)
  {
    if es != [] {
      var n := |es| - 1;
      assert es[n] in es;
      EgressesNeutral(mask, pref, six, es[..n], v6, t);
      CmdsOfOneTable(mask, pref, six, n, es[n], v6, t);
    }
  }

  lemma {:induction false} PartDistinct(es: seq<Egress>, n: nat, w: Word, j: nat)
    requires MarksDistinct(es) && n <= |es| && j < |es| && es[j].mark == w
    ensures HitOf(es[..n], w) == if j < n then [es[j].table] else []
  {
    var part := es[..n];
    HitOfOwner(part, w);
    if j < n {
      assert part[j] == es[j] && es[j] in part;
    } else {
      forall e | e in part ensures e.mark != w {
        var i :| 0 <= i < n && part[i] == e;
      }
    }
  }

  /** A packet marked for an egress, to a public address, in a family the plan routes. */
  lemma PartialConsult(pl: Plan, o: Options, base: Kernel, kern: Kernel, a: Addr, m: Word, i: nat, j: nat)
    requires GoodPlan(pl) && i < |NonWan(pl)| && j < |NonWan(pl)|
    requires Routes(pl, a.v6) && m * pl.mask == NonWan(pl)[j].mark
    requires Rules(kern, a.v6) == PartRules(pl, o, base, a.v6, i) && !Covered(PrivateRanges(a.v6), a)
    ensures Consulted(Rules(kern, a.v6), a, m) ==
      Early(o, base, a, m) + (if j <= i then [NonWan(pl)[j].table] else []) + Late(o, base, a, m)
  {
    var lo, hi, ex := InFront(o, base, a.v6), Behind(o, base, a.v6), Excludes(o.rulePref, a.v6);
    var fw := FwRules(pl.mask, o.rulePref, NonWan(pl)[..i + 1]);
    ConsultedConcat(lo + (ex + fw), hi, a, m);
    ConsultedConcat(lo, ex + fw, a, m);
    PartConsult(pl, o, a, m, i, j);
  }

  lemma PartConsult(pl: Plan, o: Options, a: Addr, m: Word, i: nat, j: nat)
    requires GoodPlan(pl) && i < |NonWan(pl)| && j < |NonWan(pl)| && m * pl.mask == NonWan(pl)[j].mark
    requires !Covered(PrivateRanges(a.v6), a)
    ensures Consulted(Excludes(o.rulePref, a.v6) + FwRules(pl.mask, o.rulePref, NonWan(pl)[..i + 1]), a, m) ==
      if j <= i then [NonWan(pl)[j].table] else []
  {
    var part := NonWan(pl)[..i + 1];
    ConsultedConcat(Excludes(o.rulePref, a.v6), FwRules(pl.mask, o.rulePref, part), a, m);
    ExcludesConsult(o.rulePref, a, m);
    PartHit(pl, o, a, m, i, j);
  }

  lemma PartHit(pl: Plan, o: Options, a: Addr, m: Word, i: nat, j: nat)
    requires GoodPlan(pl) && i < |NonWan(pl)| && j < |NonWan(pl)| && m * pl.mask == NonWan(pl)[j].mark
    ensures Consulted(FwRules(pl.mask, o.rulePref, NonWan(pl)[..i + 1]), a, m) ==
      if j <= i then [NonWan(pl)[j].table] else []
  {
    NonWanDistinct(pl);
    FwConsult(pl.mask, o.rulePref, NonWan(pl)[..i + 1], a, m);
    PartDistinct(NonWan(pl), i + 1, m * pl.mask, j);
  }

  // ---- what an Apply leaves, egress by egress ----

  /** No tunnel at or before the egress, in installation order, is down. */
  ghost predicate UpTo(pl: Plan, k: Kernel, j: nat)
    requires j < |NonWan(pl)|
  {
    forall n :: 0 <= n <= j && NonWan(pl)[n].kind == Tunnel ==> NonWan(pl)[n].iface in k.links
  }

  /** What the egress's table is meant to hold: its route, and the fallback when it has a kill switch. */
  function FullRoutes(k: Kernel, v6: bool, e: Egress): seq<Route> {
    TableRoutes(k.(links := k.links + {e.iface}), v6, e)
  }

  /** The packet is marked for the egress and goes to a public address in a family the plan routes. */
  predicate MarkedFor(pl: Plan, a: Addr, m: Word, e: Egress) {
    m * pl.mask == e.mark && Routes(pl, a.v6) && !Covered(PrivateRanges(a.v6), a) && a.n < Pow2(Width(a.v6))
  }

  /** An `Apply` that stopped at egress `i`: what egress `j` has then. */
  lemma StoppedState(pl: Plan, o: Options, base: Kernel, a: Addr, m: Word, i: nat, j: nat)
    requires GoodPlan(pl) && Installable(pl, o, base) && Nftables.Loads(Nftables.Chain(pl)) && FirstDown(pl, base, i)
    requires j < |NonWan(pl)| && MarkedFor(pl, a, m, NonWan(pl)[j])
    ensures var kern, t := NftKernel(pl, o, base), NonWan(pl)[j].table;
      && !ApplyResult(pl, o, base).ok
      && Table(kern, a.v6, t) == (if j < i then TableRoutes(base, a.v6, NonWan(pl)[j]) else [])
      && Consulted(Rules(kern, a.v6), a, m) == Early(o, base, a, m) + (if j <= i then [t] else []) + Late(o, base, a, m)
  {
    CleanIsFree(pl, o, base);
    StopsAt(pl, o, base, i);
    ClearedStart(pl, o, base);
    PartialRules(pl, o, base, Exec(base, LoadCmd(pl)).k, a.v6, i);
    PartialTables(pl, o, base, Exec(base, LoadCmd(pl)).k, a.v6, i, j);
    PartialConsult(pl, o, base, NftKernel(pl, o, base), a, m, i, j);
  }

  /** Either `Apply` completed, or it stopped after the egress, or at or before it. */
  lemma EgressOutcome(pl: Plan, o: Options, base: Kernel, j: nat) returns (i: nat)
    requires Installable(pl, o, base) && Nftables.Loads(Nftables.Chain(pl)) && j < |NonWan(pl)|
    ensures ApplyResult(pl, o, base).ok || (FirstDown(pl, base, i) && (UpTo(pl, base, j) <==> j < i))
    ensures ApplyResult(pl, o, base).ok ==> UpTo(pl, base, j)
  {
    CleanIsFree(pl, o, base);
    ApplySucceedsIff(pl, o, base);
    if ApplyResult(pl, o, base).ok {
      i := 0;
      forall n | 0 <= n <= j ensures NonWan(pl)[n] in NonWan(pl) {}
    } else {
      var e :| e in NonWan(pl) && e.kind == Tunnel && e.iface !in base.links;
      var n :| 0 <= n < |NonWan(pl)| && NonWan(pl)[n] == e;
      i := DownHasFirst(pl, base, n);
    }
  }

  lemma FullWhenUp(k: Kernel, v6: bool, e: Egress)
    requires e.kind != WAN
    ensures FullRoutes(k, v6, e) != []
    ensures (e.kind == Tunnel ==> e.iface in k.links) ==> FullRoutes(k, v6, e) == TableRoutes(k, v6, e)
  {
    if e.iface in k.links { assert k.links + {e.iface} == k.links; }
  }

  /**
   Whether `Apply` completes or stops: marked traffic of an egress is looked up in its full
   table if and only if no tunnel at or before that egress is down. Where one is, such
   traffic goes wherever unmarked traffic goes.
   */
  lemma EgressServedIff(pl: Plan, o: Options, base: Kernel, a: Addr, m: Word, j: nat, up: set<string>)
    requires GoodPlan(pl) && Installable(pl, o, base) && Nftables.Loads(Nftables.Chain(pl))
    requires j < |NonWan(pl)| && MarkedFor(pl, a, m, NonWan(pl)[j])
    ensures var kern, e := NftKernel(pl, o, base), NonWan(pl)[j];
      && (Served(o, base, kern, a, m, e) <==> UpTo(pl, base, j))
      && (!UpTo(pl, base, j) ==> Unserved(base, kern, a, m, e, up))
  {
    var e := NonWan(pl)[j];
    assert e in NonWan(pl);
    NonWanMembers(pl);
    FullWhenUp(base, a.v6, e);
    var i := EgressOutcome(pl, o, base, j);
    if ApplyResult(pl, o, base).ok {
      ServedWhenComplete(pl, o, base, a, m, e);
    } else if j < i {
      ServedBefore(pl, o, base, a, m, i, j);
    } else {
      UnservedAfter(pl, o, base, a, m, i, j, up);
    }
  }

  lemma ServedWhenComplete(pl: Plan, o: Options, base: Kernel, a: Addr, m: Word, e: Egress)
    requires GoodPlan(pl) && Installable(pl, o, base) && ApplyResult(pl, o, base).ok
    requires e in pl.egresses && e.kind != WAN && MarkedFor(pl, a, m, e)
    requires FullRoutes(base, a.v6, e) == TableRoutes(base, a.v6, e)
    ensures Served(o, base, NftKernel(pl, o, base), a, m, e)
  {
    MarkedPacketTables(pl, o, base, NftKernel(pl, o, base), a, m, e);
    DropEmpty(Early(o, base, a, m), Pinned(pl, a), [e.table]);
  }

  lemma ServedBefore(pl: Plan, o: Options, base: Kernel, a: Addr, m: Word, i: nat, j: nat)
    requires GoodPlan(pl) && Installable(pl, o, base) && Nftables.Loads(Nftables.Chain(pl)) && FirstDown(pl, base, i)
    requires j < i && MarkedFor(pl, a, m, NonWan(pl)[j])
    requires FullRoutes(base, a.v6, NonWan(pl)[j]) == TableRoutes(base, a.v6, NonWan(pl)[j])
    ensures Served(o, base, NftKernel(pl, o, base), a, m, NonWan(pl)[j])
  {
    StoppedState(pl, o, base, a, m, i, j);
  }

  lemma UnservedAfter(pl: Plan, o: Options, base: Kernel, a: Addr, m: Word, i: nat, j: nat, up: set<string>)
    requires GoodPlan(pl) && Installable(pl, o, base) && Nftables.Loads(Nftables.Chain(pl)) && FirstDown(pl, base, i)
    requires i <= j < |NonWan(pl)| && MarkedFor(pl, a, m, NonWan(pl)[j])
    ensures Unserved(base, NftKernel(pl, o, base), a, m, NonWan(pl)[j], up)
  {
    StoppedState(pl, o, base, a, m, i, j);
    BaseConsult(pl, o, base, a, m);
    SkipEmpty(NftKernel(pl, o, base), Early(o, base, a, m), NonWan(pl)[j].table, Late(o, base, a, m), j == i, a, up);
  }

  /** The egress's table is empty, and the packet goes where the base rules alone send it. */
  ghost predicate Unserved(base: Kernel, kern: Kernel, a: Addr, m: Word, e: Egress, up: set<string>) {
    && Table(kern, a.v6, e.table) == []
    && Lookup(kern, a, m, up) == Resolve(kern, Consulted(Rules(base, a.v6), a, m), a, up)
  }

  /** The packet's egress is looked up right after the rules in front of the plan, and its table is full. */
  ghost predicate Served(o: Options, base: Kernel, kern: Kernel, a: Addr, m: Word, e: Egress) {
    && Consulted(Rules(kern, a.v6), a, m) == Early(o, base, a, m) + [e.table] + Late(o, base, a, m)
    && Table(kern, a.v6, e.table) == FullRoutes(base, a.v6, e)
  }

  lemma {:induction false} RoutedInTable(k: Kernel, ts: seq<int>, a: Addr, up: set<string>)
    ensures Resolve(k, ts, a, up).Routed? ==> Table(k, a.v6, Resolve(k, ts, a, up).table) != []
  {
    if ts != [] { RoutedInTable(k, ts[1..], a, up); }
  }

  /**
   So after any `Apply` the kill switch of an egress holds exactly when no tunnel at or before
   it was down: its traffic ends in its own table then, and never does otherwise.
   */
  lemma KillSwitchAfterApply(pl: Plan, o: Options, base: Kernel, a: Addr, m: Word, j: nat, up: set<string>)
    requires GoodPlan(pl) && Installable(pl, o, base) && Nftables.Loads(Nftables.Chain(pl))
    requires j < |NonWan(pl)| && MarkedFor(pl, a, m, NonWan(pl)[j])
    requires NonWan(pl)[j].kind == Blackhole || NonWan(pl)[j].failClosed
    requires EarlyFate(o, base, NftKernel(pl, o, base), a, m, up) == Unreachable
    ensures var f := Lookup(NftKernel(pl, o, base), a, m, up);
      (f.Routed? && f.table == NonWan(pl)[j].table) <==> UpTo(pl, base, j)
  {
    var kern, e := NftKernel(pl, o, base), NonWan(pl)[j];
    assert e in NonWan(pl);
    NonWanMembers(pl);
    EgressServedIff(pl, o, base, a, m, j, up);
    if UpTo(pl, base, j) {
      FullWhenUp(base, a.v6, e);
      TableAnswers(base, a.v6, e, a, up);
      assert Early(o, base, a, m) + [] + [e.table] == Early(o, base, a, m) + [e.table];
      Stages(kern, Early(o, base, a, m), e.table, Late(o, base, a, m), a, up);
    } else {
      RoutedInTable(kern, Consulted(Rules(kern, a.v6), a, m), a, up);
    }
  }

  /**
   Where the two installers part: when a tunnel at or before an egress is down, `Apply`
   reports an error and leaves the egress's traffic to the unmarked rules, kill switch or
   not; the script run in the same state drops what is marked for a kill-switched tunnel
   that is down.
   */
  lemma FailedApplyLeaks(pl: Plan, o: Options, base: Kernel, a: Addr, m: Word, j: nat, up: set<string>)
    requires GoodPlan(pl) && Installable(pl, o, base) && Nftables.Loads(Nftables.Chain(pl))
    requires j < |NonWan(pl)| && MarkedFor(pl, a, m, NonWan(pl)[j]) && !UpTo(pl, base, j)
    ensures !ApplyResult(pl, o, base).ok
    ensures Lookup(NftKernel(pl, o, base), a, m, up) ==
      Resolve(NftKernel(pl, o, base), Consulted(Rules(base, a.v6), a, m), a, up)
    ensures var e, script := NonWan(pl)[j], IptKernel(pl, o, base);
      e.kind == Tunnel && e.failClosed && e.iface !in base.links
          && EarlyFate(o, base, script, a, m, up) == Unreachable ==>
        Lookup(script, a, m, up) == Routed(e.table, Drop)
  {
    var e := NonWan(pl)[j];
    var i := EgressOutcome(pl, o, base, j);
    EgressServedIff(pl, o, base, a, m, j, up);
    assert e in NonWan(pl);
    NonWanMembers(pl);
    if e.kind == Tunnel && e.failClosed { KillSwitchHolds(pl, o, base, IptKernel(pl, o, base), a, m, e, up); }
  }

  lemma SkipEmpty(kern: Kernel, early: seq<int>, t: int, late: seq<int>, asked: bool, a: Addr, up: set<string>)
    requires Table(kern, a.v6, t) == []
    ensures Resolve(kern, early + (if asked then [t] else []) + late, a, up) == Resolve(kern, early + late, a, up)
  {
    Stages(kern, early, t, late, a, up);
    assert early + [] + [t] + late == early + [t] + late && early + [] + late == early + late;
    ResolveConcat(kern, early, late, a, up);
  }
}
