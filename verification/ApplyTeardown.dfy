/**
 `Apply` and `Teardown` of `internal/pbr/apply.go`: command sequences against live kernel
 state. Teardown undoes any part of an apply, and applying again changes nothing.
 */
module ApplyTeardown {
  import opened Sorting
  import opened Cidr
  import opened Profiles
  import opened Compile
  import opened Datapath
  import opened PolicyRouting
  import Nftables

  function LoadCmd(pl: Plan): Cmd { NftLoad(pl.table, Nftables.Chain(pl)) }

  /** `RenderTeardown`. */
  function FullTeardown(pl: Plan, o: Options): seq<Cmd> { [NftDelete(pl.table)] + TeardownCmds(pl, o) }

  lemma {:induction false} RunsPrefix(k: Kernel, cs: seq<Cmd>) returns (m: nat)
    ensures m <= |cs| && RunUntil(k, cs).k == ExecAll(k, cs[..m]) && (RunUntil(k, cs).ok ==> m == |cs|)
  {
    if cs == [] {
      m := 0;
    } else {
      var n := |cs| - 1;
      m := RunsPrefix(k, cs[..n]);
      assert cs[..n][..m] == cs[..m];
      if RunUntil(k, cs[..n]).ok {
        m := |cs|;
        assert cs[..m] == cs;
      }
    }
  }

  /** What `Apply` leaves, refused, complete or stopped half way, is what some first part of these commands leaves. */
  lemma ApplyRunsPrefix(pl: Plan, o: Options, k: Kernel) returns (n: nat)
    ensures n <= |ApplyCmds(pl, o)| && ApplyResult(pl, o, k).k == ExecAll(k, ApplyCmds(pl, o)[..n])
    ensures ApplyResult(pl, o, k).ok ==> n == |ApplyCmds(pl, o)|
  {
    var load, clear, install := [LoadCmd(pl)], TeardownCmds(pl, o), InstallCmds(pl, o);
    assert load[..0] == [] && ExecAll(k, load) == Exec(k, LoadCmd(pl)).k;
    if !Exec(k, LoadCmd(pl)).ok {
      n := 1;
      assert ApplyCmds(pl, o)[..1] == load;
    } else {
      var cleared := ExecAll(Exec(k, LoadCmd(pl)).k, clear);
      var m := RunsPrefix(cleared, install);
      n := 1 + |clear| + m;
      ExecConcat(k, load, clear);
      ExecConcat(k, load + clear, install[..m]);
      assert ApplyCmds(pl, o)[..n] == load + clear + install[..m];
    }
  }

  /** Every command `Apply` may issue, in order. */
  function ApplyCmds(pl: Plan, o: Options): seq<Cmd> { [LoadCmd(pl)] + TeardownCmds(pl, o) + InstallCmds(pl, o) }

  /** A run that stops at the first error. */
  function RunUntil(k: Kernel, cs: seq<Cmd>): Ran {
    if cs == [] then Ran(k, true)
    else
      var r := RunUntil(k, cs[..|cs| - 1]);
      if r.ok then Exec(r.k, cs[|cs| - 1]) else r
  }

  function ApplyResult(pl: Plan, o: Options, k: Kernel): Ran {
    var loaded := Exec(k, LoadCmd(pl));
    if !loaded.ok then loaded else RunUntil(ExecAll(loaded.k, TeardownCmds(pl, o)), InstallCmds(pl, o))
  }

  /** The command runner: it owns the kernel state the commands change. */
  class Runner {
    var kernel: Kernel

    constructor (k: Kernel)
      ensures kernel == k
    {
      kernel := k;
    }

    method Run(c: Cmd) returns (ok: bool)
      modifies this
      ensures Ran(kernel, ok) == Exec(old(kernel), c)
    {
      var r := Exec(kernel, c);
      kernel := r.k;
      ok := r.ok;
    }

    /** Run every command, ignoring errors. */
    method RunAll(cmds: seq<Cmd>)
      modifies this
      ensures kernel == ExecAll(old(kernel), cmds)
    {
      for i := 0 to |cmds|
        invariant kernel == ExecAll(old(kernel), cmds[..i])
      {
        assert cmds[..i + 1][..i] == cmds[..i];
        var _ := Run(cmds[i]);
      }
      assert cmds[..|cmds|] == cmds;
    }

    /** Run commands until one fails. */
    method RunToError(cmds: seq<Cmd>) returns (ok: bool)
      modifies this
      ensures Ran(kernel, ok) == RunUntil(old(kernel), cmds)
    {
      ok := true;
      for i := 0 to |cmds|
        invariant ok && RunUntil(old(kernel), cmds[..i]) == Ran(kernel, true)
      {
        assert cmds[..i + 1][..i] == cmds[..i];
        ok := Run(cmds[i]);
        if !ok {
          FailsThrough(old(kernel), cmds, i + 1);
          return;
        }
      }
      assert cmds[..|cmds|] == cmds;
    }

    /** `Apply`: load the table, clear stale rules ignoring errors, install until an error. */
    method Apply(pl: Plan, o: Options) returns (ok: bool)
      modifies this
      ensures Ran(kernel, ok) == ApplyResult(pl, o, old(kernel))
    {
      var chain := Nftables.RenderChain(pl);
      ok := Run(NftLoad(pl.table, chain));
      if !ok {
        return;
      }
      var stale := IpTeardown(pl, o);
      RunAll(stale);
      var cmds := RenderIP(pl, o);
      ok := RunToError(cmds);
    }

    /** `Teardown`: best effort. */
    method Teardown(pl: Plan, o: Options)
      modifies this
      ensures kernel == ExecAll(old(kernel), FullTeardown(pl, o))
    {
      var ip := IpTeardown(pl, o);
      RunAll([NftDelete(pl.table)] + ip);
    }
  }

  /** After a failing prefix the result no longer changes. */
  lemma {:induction false} FailsThrough(k: Kernel, cs: seq<Cmd>, n: nat)
    requires n <= |cs| && !RunUntil(k, cs[..n]).ok
    ensures RunUntil(k, cs) == RunUntil(k, cs[..n])
    decreases |cs| - n
  {
    if n == |cs| {
      assert cs[..n] == cs;
    } else {
      assert cs[..n + 1][..n] == cs[..n];
      FailsThrough(k, cs, n + 1);
    }
  }

  /** Whatever happens, the state is that of some prefix of the commands. */
  lemma {:induction false} RunIsPrefix(k: Kernel, cs: seq<Cmd>) returns (n: nat)
    ensures n <= |cs| && RunUntil(k, cs).k == ExecAll(k, cs[..n]) && (RunUntil(k, cs).ok ==> n == |cs|)
  {
    if cs == [] {
      n := 0;
    } else {
      n := RunIsPrefix(k, cs[..|cs| - 1]);
      assert cs[..|cs| - 1][..|cs| - 1] == cs[..|cs| - 1];
      if RunUntil(k, cs[..|cs| - 1]).ok {
        n := |cs|;
        assert cs[..n] == cs;
      } else {
        assert cs[..|cs| - 1][..n] == cs[..n];
      }
    }
  }

  // ---- what belongs to the plan ----

  ghost predicate OwnsTable(pl: Plan, t: int) { exists e :: e in NonWan(pl) && e.table == t }

  /** A command that only touches the plan's own rules, tables and nft table. */
  ghost predicate PlanCmd(pl: Plan, o: Options, c: Cmd) {
    match c
    case RuleAdd(v6, r) => r in OwnRules(pl, o, v6)
    case RuleDel(v6, r) => r in OwnRules(pl, o, v6)
    case RouteReplace(v6, t, _, _) => OwnsTable(pl, t) && (v6 ==> HasV6(pl))
    case RouteAdd(v6, t, _, _) => OwnsTable(pl, t) && (v6 ==> HasV6(pl))
    case RouteFlush(v6, t) => OwnsTable(pl, t) && (v6 ==> HasV6(pl))
    case NftLoad(name, _) => name == pl.table
    case NftDelete(name) => name == pl.table
  }

  function Foreign(rs: seq<IpRule>, own: seq<IpRule>): seq<IpRule> {
    if rs == [] then [] else (if rs[0] in own then [] else [rs[0]]) + Foreign(rs[1..], own)
  }

  /** Each own rule occurs at most once. */
  ghost predicate OnceEach(rs: seq<IpRule>, own: seq<IpRule>) {
    forall i, j :: 0 <= i < j < |rs| && rs[i] == rs[j] ==> rs[i] !in own
  }

  /** The rules differ from a base only by own rules. */
  ghost predicate RulesVary(rs: seq<IpRule>, base: seq<IpRule>, own: seq<IpRule>) {
    Foreign(rs, own) == base && OnceEach(rs, own)
  }

  ghost predicate OwnKey(pl: Plan, key: (bool, int)) { OwnsTable(pl, key.1) && (key.0 ==> HasV6(pl)) }

  /** A state that differs from a base only in what belongs to the plan. */
  ghost predicate Varies(pl: Plan, o: Options, base: Kernel, k: Kernel) {
    && RulesVary(k.rules4, base.rules4, OwnRules(pl, o, false))
        && RulesVary(k.rules6, base.rules6, OwnRules(pl, o, true))
    && (forall key :: !OwnKey(pl, key) ==>
          (key in k.routes <==> key in base.routes) && (key in k.routes ==> k.routes[key] == base.routes[key]))
    && (forall n :: n != pl.table ==>
          (n in k.chains <==> n in base.chains) && (n in k.chains ==> k.chains[n] == base.chains[n]))
    && SameHost(k, base)
  }

  /** A start state holding none of the plan's rules or routes. */
  ghost predicate FreeOf(pl: Plan, o: Options, k: Kernel) {
    && (forall v6, r :: r in OwnRules(pl, o, v6) ==> r !in Rules(k, v6))
    && (forall key :: OwnKey(pl, key) ==> key !in k.routes)
  }

  // ---- rules ----

  lemma {:induction false} ForeignFree(rs: seq<IpRule>, own: seq<IpRule>)
    requires forall r :: r in own ==> r !in rs
    ensures Foreign(rs, own) == rs && OnceEach(rs, own)
  {
    if rs != [] {
      assert rs[0] in rs;
      ForeignFree(rs[1..], own);
    }
  }

  lemma {:induction false} InsertForeign(rs: seq<IpRule>, own: seq<IpRule>, r: IpRule)
    requires r in own
    ensures Foreign(InsertRule(rs, r), own) == Foreign(rs, own)
  {
    if rs != [] {
      if rs[0].prio > r.prio {
        assert ([r] + rs)[1..] == rs;
      } else {
        InsertForeign(rs[1..], own, r);
        assert ([rs[0]] + InsertRule(rs[1..], r))[1..] == InsertRule(rs[1..], r);
      }
    }
  }

  lemma {:induction false} InsertMembers(rs: seq<IpRule>, r: IpRule)
    ensures multiset(InsertRule(rs, r)) == multiset(rs) + multiset{r}
  {
    if rs != [] {
      assert rs == [rs[0]] + rs[1..];
      if rs[0].prio <= r.prio { InsertMembers(rs[1..], r); }
    }
  }

  lemma {:induction false} RemoveForeign(rs: seq<IpRule>, own: seq<IpRule>, r: IpRule)
    requires r in own
    ensures Foreign(RemoveRule(rs, r), own) == Foreign(rs, own)
  {
    if rs != [] && rs[0] != r {
      RemoveForeign(rs[1..], own, r);
      assert ([rs[0]] + RemoveRule(rs[1..], r))[1..] == RemoveRule(rs[1..], r);
    }
  }

  lemma {:induction false} RemoveMembers(rs: seq<IpRule>, r: IpRule)
    requires r in rs
    ensures multiset(RemoveRule(rs, r)) == multiset(rs) - multiset{r}
  {
    assert rs == [rs[0]] + rs[1..];
    if rs[0] != r { RemoveMembers(rs[1..], r); }
  }

  /** "At most once" read off the multiset. */
  lemma OnceByCount(rs: seq<IpRule>, own: seq<IpRule>)
    ensures OnceEach(rs, own) <==> forall r :: r in own ==> multiset(rs)[r] <= 1
  {
    if OnceEach(rs, own) {
      forall r | r in own ensures multiset(rs)[r] <= 1 { CountOnce(rs, own, r); }
    } else {
      var i, j :| 0 <= i < j < |rs| && rs[i] == rs[j] && rs[i] in own;
      CountTwice(rs, i, j);
    }
  }

  lemma CountTwice(rs: seq<IpRule>, i: nat, j: nat)
    requires i < j < |rs| && rs[i] == rs[j]
    ensures multiset(rs)[rs[i]] >= 2
  {
    var a, b := rs[..j], rs[j..];
    assert rs == a + b;
    assert a[i] in multiset(a) && b[0] in multiset(b);
  }

  lemma {:induction false} CountOnce(rs: seq<IpRule>, own: seq<IpRule>, r: IpRule)
    requires OnceEach(rs, own) && r in own
    ensures multiset(rs)[r] <= 1
  {
    if rs != [] {
      var t := rs[1..];
      assert rs == [rs[0]] + t;
      forall i, j | 0 <= i < j < |t| && t[i] == t[j] ensures t[i] !in own {
        assert rs[i + 1] == t[i] && rs[j + 1] == t[j];
      }
      CountOnce(t, own, r);
      forall j | 0 <= j < |t| ensures rs[0] == r ==> t[j] != r { assert rs[j + 1] == t[j]; }
      assert rs[0] == r ==> r !in multiset(t);
    }
  }

  lemma EffectVaries(rs: seq<IpRule>, base: seq<IpRule>, own: seq<IpRule>, c: Cmd, v6: bool)
    requires RulesVary(rs, base, own) && ((c.RuleAdd? || c.RuleDel?) && c.v6 == v6 ==> c.rule in own)
    ensures RulesVary(RuleEffect(rs, c, v6), base, own)
    ensures c.RuleDel? && c.v6 == v6 ==> c.rule !in RuleEffect(rs, c, v6)
    ensures !c.RuleAdd? ==> forall r :: r in RuleEffect(rs, c, v6) ==> r in rs
  {
    OnceByCount(rs, own);
    var next := RuleEffect(rs, c, v6);
    if c.RuleAdd? && c.v6 == v6 && c.rule !in rs {
      InsertForeign(rs, own, c.rule);
      InsertMembers(rs, c.rule);
      assert multiset(rs)[c.rule] == 0;
    } else if c.RuleDel? && c.v6 == v6 && c.rule in rs {
      RemoveForeign(rs, own, c.rule);
      RemoveMembers(rs, c.rule);
      forall r | r in next ensures r in rs && r != c.rule { assert r in multiset(next); }
    }
    OnceByCount(next, own);
  }

  // ---- whole states ----

  lemma {:induction false} ExecVaries(pl: Plan, o: Options, base: Kernel, k: Kernel, c: Cmd)
    requires Varies(pl, o, base, k) && PlanCmd(pl, o, c)
    ensures Varies(pl, o, base, Exec(k, c).k)
  {
    ExecEffect(k, c, false, 0);
    ExecEffect(k, c, true, 0);
    EffectVaries(k.rules4, base.rules4, OwnRules(pl, o, false), c, false);
    EffectVaries(k.rules6, base.rules6, OwnRules(pl, o, true), c, true);
    ExecOutside(pl, o, k, c);
  }

  lemma ExecOutside(pl: Plan, o: Options, k: Kernel, c: Cmd)
    requires PlanCmd(pl, o, c)
    ensures var n := Exec(k, c).k;
      && (forall key :: !OwnKey(pl, key) ==>
            (key in n.routes <==> key in k.routes) && (key in n.routes ==> n.routes[key] == k.routes[key]))
      && (forall x :: x != pl.table ==>
            (x in n.chains <==> x in k.chains) && (x in n.chains ==> n.chains[x] == k.chains[x]))
  {
    if c.RouteReplace? || c.RouteAdd? || c.RouteFlush? { assert OwnKey(pl, (c.v6, c.table)); }
  }

  lemma {:induction false} RunVaries(pl: Plan, o: Options, base: Kernel, k: Kernel, cs: seq<Cmd>)
    requires Varies(pl, o, base, k) && forall c :: c in cs ==> PlanCmd(pl, o, c)
    ensures Varies(pl, o, base, ExecAll(k, cs))
  {
    if cs != [] {
      var n := |cs| - 1;
      assert cs[n] in cs;
      RunVaries(pl, o, base, k, cs[..n]);
      ExecVaries(pl, o, base, ExecAll(k, cs[..n]), cs[n]);
    }
  }

  /** What a removal command leaves absent. */
  ghost predicate Gone(k: Kernel, c: Cmd) {
    match c
    case RuleDel(v6, r) => r !in Rules(k, v6)
    case RouteFlush(v6, t) => (v6, t) !in k.routes
    case NftDelete(n) => n !in k.chains
    case _ => true
  }

  predicate Removal(c: Cmd) { c.RuleDel? || c.RouteFlush? || c.NftDelete? }

  lemma RemovalRemoves(pl: Plan, o: Options, base: Kernel, k: Kernel, c: Cmd, d: Cmd)
    requires Varies(pl, o, base, k) && PlanCmd(pl, o, c) && Removal(c) && Removal(d)
    ensures Gone(Exec(k, c).k, c)
    ensures Gone(k, d) ==> Gone(Exec(k, c).k, d)
  {
    ExecEffect(k, c, false, 0);
    ExecEffect(k, c, true, 0);
    EffectVaries(k.rules4, base.rules4, OwnRules(pl, o, false), c, false);
    EffectVaries(k.rules6, base.rules6, OwnRules(pl, o, true), c, true);
  }

  lemma {:induction false} RemovalsClear(pl: Plan, o: Options, base: Kernel, k: Kernel, cs: seq<Cmd>)
    requires Varies(pl, o, base, k) && forall c :: c in cs ==> PlanCmd(pl, o, c) && Removal(c)
    ensures forall c :: c in cs ==> Gone(ExecAll(k, cs), c)
  {
    if cs != [] {
      var n := |cs| - 1;
      var c, mid := cs[n], ExecAll(k, cs[..n]);
      assert c in cs;
      RunVaries(pl, o, base, k, cs[..n]);
      RemovalsClear(pl, o, base, k, cs[..n]);
      forall d | d in cs ensures Gone(ExecAll(k, cs), d) {
        RemovalRemoves(pl, o, base, mid, c, d);
        if d != c { assert d in cs[..n]; }
      }
    }
  }

  lemma {:induction false} RemovalChains(k: Kernel, cs: seq<Cmd>)
    requires forall c :: c in cs ==> Removal(c) && !c.NftDelete?
    ensures ExecAll(k, cs).chains == k.chains
  {
    if cs != [] {
      assert cs[|cs| - 1] in cs;
      RemovalChains(k, cs[..|cs| - 1]);
    }
  }

  /** A varied state in which nothing of the plan is left is the base. */
  lemma {:induction false} NothingLeft(rs: seq<IpRule>, base: seq<IpRule>, own: seq<IpRule>)
    requires RulesVary(rs, base, own) && forall r :: r in own ==> r !in rs
    ensures rs == base
  {
    ForeignFree(rs, own);
  }

  lemma ClearedIsBase(pl: Plan, o: Options, base: Kernel, k: Kernel)
    requires Varies(pl, o, base, k) && FreeOf(pl, o, base) && FreeOf(pl, o, k)
    ensures k.rules4 == base.rules4 && k.rules6 == base.rules6 && k.routes == base.routes
  {
    assert Rules(k, false) == k.rules4 && Rules(k, true) == k.rules6;
    NothingLeft(k.rules4, base.rules4, OwnRules(pl, o, false));
    NothingLeft(k.rules6, base.rules6, OwnRules(pl, o, true));
    forall key ensures (key in k.routes <==> key in base.routes)
        && (key in k.routes ==> k.routes[key] == base.routes[key]) {
      if OwnKey(pl, key) {}
    }
  }

  // ---- the plan's own commands ----

  lemma {:induction false} EachTeardownCmds(mask: Word, pref: int, six: bool, es: seq<Egress>)
    ensures forall c :: c in EachTeardown(mask, pref, six, es) ==>
      (exists i :: 0 <= i < |es| && c in EgressTeardown(mask, pref, six, i, es[i]))
    ensures forall i :: 0 <= i < |es| ==>
              forall c :: c in EgressTeardown(mask, pref, six, i, es[i]) ==> c in EachTeardown(mask, pref, six, es)
  {
    if es != [] {
      var n := |es| - 1;
      EachTeardownCmds(mask, pref, six, es[..n]);
      forall c | c in EachTeardown(mask, pref, six, es)
        ensures exists i :: 0 <= i < |es| && c in EgressTeardown(mask, pref, six, i, es[i])
      {
        if c in EgressTeardown(mask, pref, six, n, es[n]) {
        } else {
          assert c in EachTeardown(mask, pref, six, es[..n]);
          var i :| 0 <= i < n && c in EgressTeardown(mask, pref, six, i, es[..n][i]);
          assert es[..n][i] == es[i];
        }
      }
      forall i | 0 <= i < |es|
        ensures forall c :: c in EgressTeardown(mask, pref, six, i, es[i]) ==> c in EachTeardown(mask, pref, six, es)
      {
        if i < n { assert es[..n][i] == es[i]; }
      }
    }
  }

  lemma {:induction false} EachEgressCmds(mask: Word, pref: int, six: bool, es: seq<Egress>)
    ensures forall c :: c in EachEgress(mask, pref, six, es) ==>
      exists i :: 0 <= i < |es| && c in EgressCmds(mask, pref, six, i, es[i])
  {
    if es != [] {
      var n := |es| - 1;
      EachEgressCmds(mask, pref, six, es[..n]);
      forall c | c in EachEgress(mask, pref, six, es)
        ensures exists i :: 0 <= i < |es| && c in EgressCmds(mask, pref, six, i, es[i])
      {
        if c in EgressCmds(mask, pref, six, n, es[n]) {
        } else {
          assert c in EachEgress(mask, pref, six, es[..n]);
          var i :| 0 <= i < n && c in EgressCmds(mask, pref, six, i, es[..n][i]);
          assert es[..n][i] == es[i];
        }
      }
    }
  }

  lemma OwnRule(pl: Plan, o: Options, i: nat, v6: bool)
    requires i < |NonWan(pl)| && (v6 ==> HasV6(pl))
    ensures FwRule(pl.mask, o.rulePref, i, NonWan(pl)[i]) in OwnRules(pl, o, v6)
    ensures OwnsTable(pl, NonWan(pl)[i].table)
  {
    var ex, fw := Excludes(o.rulePref, v6), FwRules(pl.mask, o.rulePref, NonWan(pl));
    assert (ex + fw)[|ex| + i] == fw[i];
    assert NonWan(pl)[i] in NonWan(pl);
  }

  lemma OwnExclude(pl: Plan, o: Options, v6: bool)
    requires v6 ==> HasV6(pl)
    ensures forall r :: r in Excludes(o.rulePref, v6) ==> r in OwnRules(pl, o, v6)
  {}

  lemma TeardownIsOwn(pl: Plan, o: Options)
    ensures forall c :: c in FullTeardown(pl, o) ==> PlanCmd(pl, o, c) && Removal(c)
    ensures forall c :: c in TeardownCmds(pl, o) ==> PlanCmd(pl, o, c) && Removal(c) && !c.NftDelete?
  {
    var six, es := HasV6(pl), NonWan(pl);
    EachTeardownCmds(pl.mask, o.rulePref, six, es);
    OwnExclude(pl, o, false);
    if six { OwnExclude(pl, o, true); }
    forall c | c in TeardownCmds(pl, o) ensures PlanCmd(pl, o, c) && Removal(c) && !c.NftDelete? {
      if c in EachTeardown(pl.mask, o.rulePref, six, es) {
        var i :| 0 <= i < |es| && c in EgressTeardown(pl.mask, o.rulePref, six, i, es[i]);
        OwnRule(pl, o, i, false);
        if six { OwnRule(pl, o, i, true); }
      }
    }
  }

  lemma EgressIsOwn(pl: Plan, o: Options, i: nat)
    requires i < |NonWan(pl)|
    ensures forall c :: c in EgressCmds(pl.mask, o.rulePref, HasV6(pl), i, NonWan(pl)[i]) ==> PlanCmd(pl, o, c)
  {
    OwnRule(pl, o, i, false);
    if HasV6(pl) { OwnRule(pl, o, i, true); }
    EgressShapes(pl.mask, o.rulePref, HasV6(pl), i, NonWan(pl)[i]);
  }

  lemma EgressShapes(mask: Word, pref: int, six: bool, i: nat, e: Egress)
    ensures forall c :: c in EgressCmds(mask, pref, six, i, e) ==>
      || c == RuleAdd(false, FwRule(mask, pref, i, e)) || (six && c == RuleAdd(true, FwRule(mask, pref, i, e)))
      || (c.RouteReplace? && c.table == e.table && (c.v6 ==> six))
  {}

  lemma InstallIsOwn(pl: Plan, o: Options)
    ensures forall c :: c in InstallCmds(pl, o) ==> PlanCmd(pl, o, c)
  {
    var six, es := HasV6(pl), NonWan(pl);
    EachEgressCmds(pl.mask, o.rulePref, six, es);
    OwnExclude(pl, o, false);
    if six { OwnExclude(pl, o, true); }
    forall c | c in EachEgress(pl.mask, o.rulePref, six, es) ensures PlanCmd(pl, o, c) {
      var i :| 0 <= i < |es| && c in EgressCmds(pl.mask, o.rulePref, six, i, es[i]);
      EgressIsOwn(pl, o, i);
    }
    forall c | c in Adds(false, Excludes(o.rulePref, false)) ensures PlanCmd(pl, o, c) {}
    if six { forall c | c in Adds(true, Excludes(o.rulePref, true)) ensures PlanCmd(pl, o, c) {} }
  }

  lemma ApplyIsOwn(pl: Plan, o: Options)
    ensures forall c :: c in ApplyCmds(pl, o) ==> PlanCmd(pl, o, c)
  {
    TeardownIsOwn(pl, o);
    InstallIsOwn(pl, o);
  }

  /** Teardown names every rule and table of the plan. */
  lemma TeardownNamesAll(pl: Plan, o: Options)
    ensures forall v6, r :: r in OwnRules(pl, o, v6) ==> RuleDel(v6, r) in TeardownCmds(pl, o)
    ensures forall key :: OwnKey(pl, key) ==> RouteFlush(key.0, key.1) in TeardownCmds(pl, o)
  {
    var six, es := HasV6(pl), NonWan(pl);
    EachTeardownCmds(pl.mask, o.rulePref, six, es);
    forall v6, r | r in OwnRules(pl, o, v6) ensures RuleDel(v6, r) in TeardownCmds(pl, o) {
      var ex, fw := Excludes(o.rulePref, v6), FwRules(pl.mask, o.rulePref, es);
      if r in ex {
        var j :| 0 <= j < |ex| && ex[j] == r;
        assert Dels(v6, ex)[j] == RuleDel(v6, r);
        assert RuleDel(v6, r) in Dels(v6, ex);
      } else {
        var i :| 0 <= i < |fw| && fw[i] == r;
        assert RuleDel(v6, r) in EgressTeardown(pl.mask, o.rulePref, six, i, es[i]);
      }
    }
    forall key | OwnKey(pl, key) ensures RouteFlush(key.0, key.1) in TeardownCmds(pl, o) {
      var e :| e in es && e.table == key.1;
      var i :| 0 <= i < |es| && es[i] == e;
      assert RouteFlush(key.0, key.1) in EgressTeardown(pl.mask, o.rulePref, six, i, es[i]);
    }
  }

  // ---- main results ----

  lemma SelfVaries(pl: Plan, o: Options, base: Kernel)
    requires FreeOf(pl, o, base)
    ensures Varies(pl, o, base, base)
  {
    assert Rules(base, false) == base.rules4 && Rules(base, true) == base.rules6;
    ForeignFree(base.rules4, OwnRules(pl, o, false));
    ForeignFree(base.rules6, OwnRules(pl, o, true));
  }

  /** The rule and route part of a teardown, from any state that varies from a base free of the plan. */
  lemma IpTeardownClears(pl: Plan, o: Options, base: Kernel, k: Kernel)
    requires FreeOf(pl, o, base) && Varies(pl, o, base, k)
    ensures var n := ExecAll(k, TeardownCmds(pl, o));
      n.rules4 == base.rules4 && n.rules6 == base.rules6 && n.routes == base.routes && n.chains == k.chains
      && SameHost(n, base)
  {
    var cs := TeardownCmds(pl, o);
    var n := ExecAll(k, cs);
    TeardownIsOwn(pl, o);
    RunVaries(pl, o, base, k, cs);
    RemovalsClear(pl, o, base, k, cs);
    RemovalChains(k, cs);
    TeardownNamesAll(pl, o);
    forall v6, r | r in OwnRules(pl, o, v6) ensures r !in Rules(n, v6) { assert Gone(n, RuleDel(v6, r)); }
    forall key | OwnKey(pl, key) ensures key !in n.routes { assert Gone(n, RouteFlush(key.0, key.1)); }
    ClearedIsBase(pl, o, base, n);
  }

  /**
   Teardown undoes any prefix of an apply, and indeed any run of the plan's own commands:
   from every start state free of the plan's nft table, rules and routes it gives that state back.
   */
  lemma TeardownRestores(pl: Plan, o: Options, base: Kernel, n: nat)
    requires FreeOf(pl, o, base) && pl.table !in base.chains && n <= |ApplyCmds(pl, o)|
    ensures ExecAll(ExecAll(base, ApplyCmds(pl, o)[..n]), FullTeardown(pl, o)) == base
  {
    var cs := ApplyCmds(pl, o)[..n];
    ApplyIsOwn(pl, o);
    SelfVaries(pl, o, base);
    RunVaries(pl, o, base, base, cs);
    VariedTeardown(pl, o, base, ExecAll(base, cs));
  }

  /** So teardown undoes an Apply, however it ended. */
  lemma TeardownUndoesApply(pl: Plan, o: Options, base: Kernel)
    requires FreeOf(pl, o, base) && pl.table !in base.chains
    ensures ExecAll(ApplyResult(pl, o, base).k, FullTeardown(pl, o)) == base
  {
    var n := ApplyRunsPrefix(pl, o, base);
    TeardownRestores(pl, o, base, n);
  }

  lemma VariedTeardown(pl: Plan, o: Options, base: Kernel, k: Kernel)
    requires FreeOf(pl, o, base) && pl.table !in base.chains && Varies(pl, o, base, k)
    ensures ExecAll(k, FullTeardown(pl, o)) == base
  {
    var del := NftDelete(pl.table);
    var mid := Exec(k, del).k;
    ExecVaries(pl, o, base, k, del);
    ExecConcat(k, [del], TeardownCmds(pl, o));
    assert [del][..0] == [];
    assert ExecAll(k, [del]) == mid;
    IpTeardownClears(pl, o, base, mid);
    assert mid.chains == base.chains;
  }

  /**
   Apply from any state a partial run left gives the same result as from the clean start,
   and changes nothing in either when the ruleset is refused.
   */
  lemma ApplyForgets(pl: Plan, o: Options, base: Kernel, k: Kernel)
    requires FreeOf(pl, o, base) && Varies(pl, o, base, k)
    ensures ApplyResult(pl, o, k) ==
      if Nftables.Loads(Nftables.Chain(pl)) then ApplyResult(pl, o, base) else Ran(k, false)
  {
    var load := LoadCmd(pl);
    if !Nftables.Loads(Nftables.Chain(pl)) { return; }
    SelfVaries(pl, o, base);
    ExecVaries(pl, o, base, k, load);
    ExecVaries(pl, o, base, base, load);
    IpTeardownClears(pl, o, base, Exec(k, load).k);
    IpTeardownClears(pl, o, base, Exec(base, load).k);
    assert Exec(k, load).k.chains == Exec(base, load).k.chains;
  }

  /** A refused ruleset stops `Apply` before any other command. */
  lemma RefusedLoad(pl: Plan, o: Options, k: Kernel)
    requires !Nftables.Loads(Nftables.Chain(pl))
    ensures ApplyResult(pl, o, k) == Ran(k, false)
  {
    LoadRefused(k, pl.table, Nftables.Chain(pl));
    StopsAtLoad(pl, o, k);
  }

  lemma LoadRefused(k: Kernel, name: string, chain: seq<Nftables.NftRule>)
    requires !Nftables.Loads(chain)
    ensures Exec(k, NftLoad(name, chain)) == Ran(k, false)
  {}

  lemma StopsAtLoad(pl: Plan, o: Options, k: Kernel)
    requires !Exec(k, LoadCmd(pl)).ok
    ensures ApplyResult(pl, o, k) == Exec(k, LoadCmd(pl))
  {}

  /** Applying twice equals applying once, also when the first apply failed half way. */
  lemma ApplyIdempotent(pl: Plan, o: Options, base: Kernel)
    requires FreeOf(pl, o, base)
    ensures ApplyResult(pl, o, ApplyResult(pl, o, base).k) == ApplyResult(pl, o, base)
  {
    var load := LoadCmd(pl);
    if !Nftables.Loads(Nftables.Chain(pl)) { return; }
    SelfVaries(pl, o, base);
    ExecVaries(pl, o, base, base, load);
    TeardownIsOwn(pl, o);
    InstallIsOwn(pl, o);
    RunVaries(pl, o, base, Exec(base, load).k, TeardownCmds(pl, o));
    var cleared := ExecAll(Exec(base, load).k, TeardownCmds(pl, o));
    var n := RunIsPrefix(cleared, InstallCmds(pl, o));
    RunVaries(pl, o, base, cleared, InstallCmds(pl, o)[..n]);
    ApplyForgets(pl, o, base, ApplyResult(pl, o, base).k);
  }

  // ---- success ----

  /** The rules a command sequence adds in one family. */
  function AddsOf(cs: seq<Cmd>, v6: bool): seq<IpRule> {
    if cs == [] then []
    else
      var c := cs[|cs| - 1];
      AddsOf(cs[..|cs| - 1], v6) + (if c.RuleAdd? && c.v6 == v6 then [c.rule] else [])
  }

  lemma {:induction false} AddsOfConcat(a: seq<Cmd>, b: seq<Cmd>, v6: bool)
    ensures AddsOf(a + b, v6) == AddsOf(a, v6) + AddsOf(b, v6)
  {
    if b == [] {
      assert a + b == a;
    } else {
      assert (a + b)[..|a + b| - 1] == a + b[..|b| - 1];
      AddsOfConcat(a, b[..|b| - 1], v6);
    }
  }

  lemma {:induction false} AddsOfAdds(rs: seq<IpRule>, v6: bool, f: bool)
    ensures AddsOf(Adds(v6, rs), f) == if f == v6 then rs else []
  {
    if rs != [] {
      assert Adds(v6, rs)[..|rs| - 1] == Adds(v6, rs[..|rs| - 1]);
      AddsOfAdds(rs[..|rs| - 1], v6, f);
    }
  }

  lemma {:induction false} AddsOfRoutes(cs: seq<Cmd>, v6: bool)
    requires forall c :: c in cs ==> !c.RuleAdd?
    ensures AddsOf(cs, v6) == []
  {
    if cs != [] {
      assert cs[|cs| - 1] in cs;
      AddsOfRoutes(cs[..|cs| - 1], v6);
    }
  }

  lemma AddsOfEgress(mask: Word, pref: int, six: bool, i: nat, e: Egress, v6: bool)
    ensures AddsOf(EgressCmds(mask, pref, six, i, e), v6) == if v6 ==> six then [FwRule(mask, pref, i, e)] else []
  {
    var r := FwRule(mask, pref, i, e);
    var four, more := [RuleAdd(false, r)], If6(six, RuleAdd(true, r));
    var tail := RouteCmds(six, e);
    RoutesOnly(six, e);
    AddsOfConcat(four + more, tail, v6);
    AddsOfConcat(four, more, v6);
    AddsOfRoutes(tail, v6);
    assert [RuleAdd(false, r)] == Adds(false, [r]) && [RuleAdd(true, r)] == Adds(true, [r]);
    AddsOfAdds([r], false, v6);
    AddsOfAdds([r], true, v6);
  }

  lemma AddsOfPair(a: seq<Cmd>, b: seq<Cmd>, x: seq<IpRule>, y: seq<IpRule>, v6: bool)
    requires AddsOf(a, v6) == x && AddsOf(b, v6) == y
    ensures AddsOf(a + b, v6) == x + y
  {
    AddsOfConcat(a, b, v6);
  }

  lemma {:induction false} AddsOfEach(mask: Word, pref: int, six: bool, es: seq<Egress>, v6: bool)
    ensures AddsOf(EachEgress(mask, pref, six, es), v6) == if v6 ==> six then FwRules(mask, pref, es) else []
  {
    if es != [] {
      var n := |es| - 1;
      var on := v6 ==> six;
      AddsOfEach(mask, pref, six, es[..n], v6);
      AddsOfEgress(mask, pref, six, n, es[n], v6);
      var before := if on then FwRules(mask, pref, es[..n]) else [];
      var last := if on then [FwRule(mask, pref, n, es[n])] else [];
      AddsOfPair(EachEgress(mask, pref, six, es[..n]), EgressCmds(mask, pref, six, n, es[n]), before, last, v6);
      FwRulesSnoc(mask, pref, es);
    }
  }

  lemma FwRulesSnoc(mask: Word, pref: int, es: seq<Egress>)
    requires es != []
    ensures FwRules(mask, pref, es) ==
        FwRules(mask, pref, es[..|es| - 1]) + [FwRule(mask, pref, |es| - 1, es[|es| - 1])]
  {}

  lemma AddsOfExcludes(pref: int, six: bool, v6: bool)
    ensures AddsOf(ExcludeAdds(pref, six), v6) == if v6 ==> six then Excludes(pref, v6) else []
  {
    AddsOfTwo(Excludes(pref, false), Excludes(pref, true), six, v6);
  }

  lemma AddsOfTwo(four: seq<IpRule>, more: seq<IpRule>, six: bool, v6: bool)
    ensures AddsOf(Adds(false, four) + (if six then Adds(true, more) else []), v6) ==
      if v6 then (if six then more else []) else four
  {
    AddsOfConcat(Adds(false, four), if six then Adds(true, more) else [], v6);
    AddsOfAdds(four, false, v6);
    AddsOfAdds(more, true, v6);
  }

  lemma AddsOfInstall(pl: Plan, o: Options, v6: bool)
    ensures AddsOf(InstallCmds(pl, o), v6) == OwnRules(pl, o, v6)
  {
    var six := HasV6(pl);
    var on := v6 ==> six;
    AddsOfExcludes(o.rulePref, six, v6);
    AddsOfEach(pl.mask, o.rulePref, six, NonWan(pl), v6);
    AddsOfPair(ExcludeAdds(o.rulePref, six), EachEgress(pl.mask, o.rulePref, six, NonWan(pl)),
               if on then Excludes(o.rulePref, v6) else [],
               if on then FwRules(pl.mask, o.rulePref, NonWan(pl)) else [], v6);
  }

  /** Additions of distinct, absent rules all succeed. */
  lemma {:induction false} DistinctAddsSucceed(k: Kernel, cs: seq<Cmd>)
    requires forall c :: c in cs ==> c.RuleAdd? || (c.RouteReplace? && HopOk(k, c.hop))
    requires forall v6 :: Distinct(AddsOf(cs, v6)) && forall r :: r in AddsOf(cs, v6) ==> r !in Rules(k, v6)
    ensures RunUntil(k, cs) == Ran(ExecAll(k, cs), true)
    ensures forall v6, r :: r in Rules(ExecAll(k, cs), v6) ==> r in Rules(k, v6) || r in AddsOf(cs, v6)
  {
    if cs != [] {
      var n := |cs| - 1;
      var c, mid := cs[n], ExecAll(k, cs[..n]);
      assert c in cs;
      forall v6 ensures Distinct(AddsOf(cs[..n], v6)) && forall r :: r in AddsOf(cs[..n], v6) ==> r !in Rules(k, v6) {
        assert AddsOf(cs[..n], v6) <= AddsOf(cs, v6);
        forall r | r in AddsOf(cs[..n], v6) ensures r in AddsOf(cs, v6) {}
      }
      DistinctAddsSucceed(k, cs[..n]);
      if c.RuleAdd? {
        var before := AddsOf(cs[..n], c.v6);
        assert AddsOf(cs, c.v6) == before + [c.rule];
        assert c.rule in AddsOf(cs, c.v6);
        forall j | 0 <= j < |before| ensures before[j] != c.rule {
          assert AddsOf(cs, c.v6)[j] == before[j] && AddsOf(cs, c.v6)[|before|] == c.rule;
        }
        assert c.rule !in Rules(mid, c.v6);
      } else {
        ExecFolds(k, cs[..n], false, 0);
      }
      forall v6, r | r in Rules(ExecAll(k, cs), v6) ensures r in Rules(k, v6) || r in AddsOf(cs, v6) {
        AddedMember(mid, c, v6, r);
        if r in AddsOf(cs[..n], v6) { assert r in AddsOf(cs, v6); }
      }
    }
  }

  lemma AddedMember(k: Kernel, c: Cmd, v6: bool, r: IpRule)
    requires (c.RuleAdd? || c.RouteReplace?) && r in Rules(Exec(k, c).k, v6)
    ensures r in Rules(k, v6) || (c.RuleAdd? && c.v6 == v6 && r == c.rule)
  {
    ExecEffect(k, c, v6, 0);
    if c.RuleAdd? && c.v6 == v6 && c.rule !in Rules(k, v6) {
      InsertMembers(Rules(k, v6), c.rule);
      assert r in multiset(InsertRule(Rules(k, v6), c.rule));
    }
  }

  lemma InstallOnlyAdds(pl: Plan, o: Options)
    ensures forall c :: c in InstallCmds(pl, o) ==> c.RuleAdd? || c.RouteReplace?
  {
    EachEgressCmds(pl.mask, o.rulePref, HasV6(pl), NonWan(pl));
  }

  /** Every tunnel the plan routes into is up. */
  ghost predicate LinksUp(pl: Plan, k: Kernel) {
    forall e :: e in NonWan(pl) && e.kind == Tunnel ==> e.iface in k.links
  }

  lemma HopsAreLinks(pl: Plan, o: Options, k: Kernel)
    ensures LinksUp(pl, k) <==> forall c :: c in InstallCmds(pl, o) && c.RouteReplace? ==> HopOk(k, c.hop)
  {
    var six, es := HasV6(pl), NonWan(pl);
    EachEgressCmds(pl.mask, o.rulePref, six, es);
    assert InstallCmds(pl, o) == ExcludeAdds(o.rulePref, six) + EachEgress(pl.mask, o.rulePref, six, es);
    if LinksUp(pl, k) {
      forall c | c in InstallCmds(pl, o) && c.RouteReplace? ensures HopOk(k, c.hop) {
        var i :| 0 <= i < |es| && c in EgressCmds(pl.mask, o.rulePref, six, i, es[i]);
        assert es[i] in es;
        EgressHop(pl.mask, o.rulePref, six, i, es[i], c);
      }
    } else {
      var e :| e in es && e.kind == Tunnel && e.iface !in k.links;
      var i :| 0 <= i < |es| && es[i] == e;
      EgressListed(pl.mask, o.rulePref, six, es, i);
      TunnelRoute(pl.mask, o.rulePref, six, i, e);
    }
  }

  lemma EgressHop(mask: Word, pref: int, six: bool, i: nat, e: Egress, c: Cmd)
    requires c in EgressCmds(mask, pref, six, i, e) && c.RouteReplace?
    ensures c.hop.Dev? ==> e.kind == Tunnel && c.hop.iface == e.iface
  {}

  lemma TunnelRoute(mask: Word, pref: int, six: bool, i: nat, e: Egress)
    requires e.kind == Tunnel
    ensures RouteReplace(false, e.table, None, Dev(e.iface)) in EgressCmds(mask, pref, six, i, e)
  {}

  lemma {:induction false} EgressListed(mask: Word, pref: int, six: bool, es: seq<Egress>, i: nat)
    requires i < |es|
    ensures forall c :: c in EgressCmds(mask, pref, six, i, es[i]) ==> c in EachEgress(mask, pref, six, es)
  {
    if i < |es| - 1 {
      EgressListed(mask, pref, six, es[..|es| - 1], i);
      assert es[..|es| - 1][i] == es[i];
    }
  }

  lemma {:induction false} MissingLinkFails(k: Kernel, cs: seq<Cmd>, c: Cmd)
    requires c in cs && c.RouteReplace? && !HopOk(k, c.hop)
    ensures !RunUntil(k, cs).ok
  {
    var n := |cs| - 1;
    if cs[n] == c {
      var m := RunIsPrefix(k, cs[..n]);
      ExecFolds(k, cs[..n][..m], false, 0);
    } else {
      MissingLinkFails(k, cs[..n], c);
    }
  }

  /** The plan's additions are distinct, and absent from a state free of the plan. */
  lemma FreshAdds(pl: Plan, o: Options, base: Kernel)
    requires FreeOf(pl, o, base)
    ensures forall v6 :: Distinct(AddsOf(InstallCmds(pl, o), v6))
                      && forall r :: r in AddsOf(InstallCmds(pl, o), v6) ==> r !in Rules(base, v6)
  {
    forall v6 ensures Distinct(AddsOf(InstallCmds(pl, o), v6))
                   && forall r :: r in AddsOf(InstallCmds(pl, o), v6) ==> r !in Rules(base, v6) {
      AddsOfInstall(pl, o, v6);
      PrioritiesDistinct(pl, o, v6);
    }
  }

  /** The state Apply installs into: the ruleset loaded, nothing else touched. */
  lemma ClearedStart(pl: Plan, o: Options, base: Kernel)
    requires FreeOf(pl, o, base)
    ensures var loaded := Exec(base, LoadCmd(pl)).k;
      && ExecAll(loaded, TeardownCmds(pl, o)) == loaded && FreeOf(pl, o, loaded)
      && loaded.routes == base.routes && SameHost(loaded, base) && forall v6 :: Rules(loaded, v6) == Rules(base, v6)
  {
    SelfVaries(pl, o, base);
    ExecVaries(pl, o, base, base, LoadCmd(pl));
    IpTeardownClears(pl, o, base, Exec(base, LoadCmd(pl)).k);
  }

  /**
   From a start state free of the plan, `Apply` reports success if and only if the ruleset
   loads and every tunnel interface is up; then every command ran.
   */
  lemma ApplySucceedsIff(pl: Plan, o: Options, base: Kernel)
    requires FreeOf(pl, o, base)
    ensures ApplyResult(pl, o, base).ok <==> Nftables.Loads(Nftables.Chain(pl)) && LinksUp(pl, base)
    ensures ApplyResult(pl, o, base).ok ==>
      ApplyResult(pl, o, base).k == ExecAll(Exec(base, LoadCmd(pl)).k, InstallCmds(pl, o))
  {
    if Nftables.Loads(Nftables.Chain(pl)) {
      var loaded := Exec(base, LoadCmd(pl)).k;
      ClearedStart(pl, o, base);
      InstallSucceedsIff(pl, o, loaded);
      assert ApplyResult(pl, o, base) == RunUntil(loaded, InstallCmds(pl, o));
    }
  }

  lemma InstallSucceedsIff(pl: Plan, o: Options, k: Kernel)
    requires FreeOf(pl, o, k)
    ensures RunUntil(k, InstallCmds(pl, o)).ok <==> LinksUp(pl, k)
    ensures LinksUp(pl, k) ==> RunUntil(k, InstallCmds(pl, o)) == Ran(ExecAll(k, InstallCmds(pl, o)), true)
  {
    var cs := InstallCmds(pl, o);
    HopsAreLinks(pl, o, k);
    if LinksUp(pl, k) {
      FreshAdds(pl, o, k);
      InstallOnlyAdds(pl, o);
      DistinctAddsSucceed(k, cs);
    } else {
      var c :| c in cs && c.RouteReplace? && !HopOk(k, c.hop);
      MissingLinkFails(k, cs, c);
    }
  }
}
