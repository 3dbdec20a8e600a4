# Velinx: a verified model

Velinx turns one user profile into two routing planes, applies them to a router and rolls them
back when connectivity is lost. This project models the parts where an error loses or leaks
traffic, and proves what they promise for every profile, packet, interleaving or document.

`dafny verify dfyconfig.toml` checks everything. Nothing here was executed: all results are proofs
about the model.

| part | modules |
|---|---|
| address lists, the profile, and its compilation into zones, marks and tables | `Sequences`, `Sorting`, `Cidr`, `Profiles`, `Compile`, `PlanFacts` |
| the routing decision and its two kernel renderings | `Datapath`, `Nftables`, `Iptables`, `PolicyRouting`, `PlaneEquivalence`, `KillSwitch`, `KernelExamples`, `FlowAffinity`, `SourceMatching` |
| installing and removing a plan, and an installation that stops half way | `ApplyTeardown`, `FailedApply` |
| what leaves sing-box, and when sing-box may be off | `Hybrid`, `Carriage`, `Emission`, `NativeOnly` |
| what each kernel zone takes, against what its rule names | `RuleScope` |
| what a group's kill switch, an endpoint's server and a default rule mean for traffic | `ProfileRoutes`, `SingboxRoute` |
| the fail-safe window and the Apply protocol around it | `FailSafe`, `ApplyProtocol` |
| the baseline file that two handlers write | `CommitRace` |
| the Clash YAML printer and reader | `Yaml`, `ClashPrinter`, `ClashParser`, `ClashRoundTrip`, `ClashDocument`, `FlowKeys`, `ClashBlocks`, `ClashSubscription` |
| profile validation, the process supervisor, the failover cron | `GroupCycles`, `Validate`, `Supervisor`, `Failover` |

Conventions. A rendered line is a datatype (match, mark, restore, rule, route) and each plane has an
interpreter. A 32-bit mark is the set of its one bits. A loop of the source is a method proved equal
to a function, and the results are about that function. Objects that update their fields are classes.
Concurrency is a step function over one event per locked section, so a run is any sequence of events;
an event that is not enabled leaves the state alone. Clocks, probes, spawned processes and which links
are up are inputs; whether an `ip` or `nft` command succeeds follows from the kernel state.

## Main results

- **The two planes agree** (`PlanFacts.CompiledPlanesAgree`). For every profile, base state and packet of a
  fresh flow, once Apply reports success the nft chain with its rules and the iptables chain with its rules consult
  the same tables: those of the rules in front of the plan, then those of "bypass first, else the last matching zone
  in name order, else main", then those of the rules behind it. They send the packet the same way whatever links are
  up. A blank source entry drops its condition on the iptables plane, which then follows the plan without it. The base state may hold any rules except between the plan's priority numbers, so the stock rules of a Linux
  namespace qualify (`PlaneEquivalence.StockRulesClean`).
- **Apply succeeds exactly when the ruleset loads and every tunnel link is up** (`ApplyTeardown.ApplySucceedsIff`),
  and otherwise is refused unchanged or stops at the first tunnel that is down (`FailedApply.ApplyOutcomes`).
  Whatever happens, an egress is served exactly when no tunnel at or before it is down (`FailedApply.EgressServedIff`).
- **Marked traffic does not leak** (`KillSwitch.MarkedPacketFate`, `KillSwitch.KillSwitchHolds`,
  `KillSwitch.StockKillSwitch`, `FlowAffinity.NftKeepsEgress`, `FlowAffinity.IptStaysMarked`).
- **A group's kill switch holds for its packets, from the profile on** (`ProfileRoutes.GroupKillSwitch`): whatever either
  chain marked for a kill-switched group leaves by the group's first kernel device or is dropped. Private destinations
  stay on main (`KillSwitch.PrivateStaysOnMain`), and a tunnel's own server outside every tunnel
  (`ProfileRoutes.PeersStayOutside`).
- **Teardown undoes any part of an apply, and applying twice is applying once, failed applies included**
  (`ApplyTeardown.TeardownRestores`, `ApplyTeardown.ApplyIdempotent`).
- **What leaves sing-box is in the kernel plan, and exactly when it also gets there** (`Hybrid.DroppedRuleCarried`,
  `NativeOnly.VerdictCarriesRule`, `Carriage.DroppedRuleReaches`, `Carriage.DroppedListReaches`), and what the
  generated route refers to is always generated (`Emission.ReferencesResolve`). What is referred to and where unmatched
  traffic goes is stated in the profile's own fields (`SingboxRoute.RuleRoutedIff`, `SingboxRoute.FinalFollowsDefault`),
  and so is when sing-box may stay off (`NativeOnly.VerdictIff`); no address a rule names is lost between the planes
  (`SingboxRoute.RuleServed`).
- **Every kernel zone takes exactly what the surviving matchers of one rule or list say**
  (`RuleScope.ZonesStemFromProfile`), every rule has one (`RuleScope.EveryRuleHasZone`), and what that is beyond the rule is known exactly (`RuleScope.TakesOnlyNamedIff`).
- **The fail-safe is safe in every interleaving** (`ApplyProtocol.RollbackStaysInWindow`,
  `ApplyProtocol.RestoredOnce`), a confirmed configuration becomes the next rollback target
  (`ApplyProtocol.CommittedBecomesTarget`), and its timing is exactly a function of the probe history (`FailSafe.TickDecides`).
- **An exported Clash document reads back as what was exported** (`ClashDocument.DocumentRoundTrip`), and a subscription in
  block style, any depth of nesting and lists included, as its leaves under their dotted paths
  (`ClashBlocks.TreeReads`, `ClashSubscription.SubscriptionReads`).
- **Validation accepts exactly the structurally valid profiles** (`Validate.ValidateProfile`).

## Where the code does less than it says

Each of these is a lemma, with the exact condition under which the promise does hold.

- A saved Apply does not start a new window (internal/server/profile.go:480-485), so a rollback decided before it
  overwrites the saved configuration: `ApplyProtocol.SavedApplyOverwritten`. `Confirm` does not withdraw one either:
  `ApplyProtocol.ConfirmedOverwritten`. A closed window can still restore exactly when a started closure of it is not
  done or a loop of it has decided and not claimed: `ApplyProtocol.ClosedRestoresIff`. A caller can read the guard off
  the manager: with no rollback decided and none dispatched nothing restores (`ApplyProtocol.ConfirmedStays`).
- A manual rollback closes its window before its closure runs, so an Apply that takes the lock first can back up the
  rejected configuration: `ApplyProtocol.RejectedBecomesBaseline`. It does so exactly when it reads the window as
  closed: `ApplyProtocol.RejectedBaselineIff`.
- When a tunnel's link is down, Apply stops at it (internal/pbr/apply.go:74-79) with its rules installed and its table
  empty. Traffic of that egress and of every later one then goes where unmarked traffic goes, kill switch or not, while
  the script of the other plane drops it: `FailedApply.FailedApplyLeaks`, `KernelExamples.TunnelDownLeaks`; exactly
  when by `FailedApply.EgressServedIff` and `FailedApply.KillSwitchAfterApply`. An Apply without save is rolled back after that; a saved one keeps the configuration (internal/server/profile.go:426-460).
- The kill-switch fallback has metric 1000, and the tunnel's own route takes the family's default. Linux gives an IPv6
  route 1024, so a kill-switched group drops all IPv6 while its tunnel is up: `KillSwitch.KillSwitchDropsIPv6`,
  `KernelExamples.TunnelUpDropsIPv6`; exactly when by `KillSwitch.KillSwitchHolds`.
- A blank first `source_mac` entry is printed as a set nft does not parse, so the ruleset is refused:
  `SourceMatching.BlankMacRefused`, exactly when by `Nftables.ChainLoadsIff`. Any other blank entry is a condition on one
  plane and none on the other: `SourceMatching.RenderingsAgreeIffNoBlank`, `Iptables.FreshPlane`.
- Of two rules for one address sing-box takes the first listed and the kernel the zone named last:
  `Carriage.FirstRuleLoses`, exactly when by `Carriage.DecidesForIff`.
- The v4-only posture strips IPv6 sources and destinations from a rule but keeps its other matchers, and the compiler
  reads no domain, geo set or port. A zone then takes packets its rule does not name exactly when the rule has a port
  matcher, or none of its source addresses or none of its destinations is left: `RuleScope.TakesOnlyNamedIff`, read off
  the profile by `RuleScope.LostWhen`. `RuleScope.SourceExample`, `RuleScope.SourceAndMacExample`,
  `RuleScope.DestinationExample` and `RuleScope.DomainExample` are rules and packets where it happens.
- The nft restore lines are not gated on `hasV6`: `KillSwitch.InheritedMarkUngated` against `KillSwitch.V6GateExact`,
  with a packet in `KernelExamples.InheritedMarkExample`.
- A group that the route does not reach and that has no kernel member of its own is still generated, and dangles
  exactly when it nests an omitted kernel tag: `Emission.GroupDanglesIff`, `Emission.NestedGroupDangles`. A list's
  download detour dangles exactly when it is block or an omitted kernel tag: `Emission.DetourDanglesIff`,
  `Emission.DetourDangles`.
- The failover cron reads a member called like a builtin as that builtin even when an endpoint has the name:
  `Failover.BuiltinEndpointMisleads`. For every profile, when its first choice is the compiled interface is exactly
  `Failover.FirstChoiceIff`.
- A Reload whose kill fails ends without the intent to run, so the watchdog never retries it:
  `Supervisor.ReloadAbandonedIff`, `Supervisor.AbandonedReloadLosesIntent`.
- The comment at internal/core/singbox.go:345-350 says every caller of Commit holds `applyMu`; the confirm handler
  (internal/server/failsafe.go:128-130) does not. A confirmation beside a saved Apply can leave the baseline file mixed
  from two configurations for good: `CommitRace.TornForGood`. One that arrives can tear it exactly when another commit
  is still to come or under way (`CommitRace.ConfirmTearsIff`); under the lock alone none can (`CommitRace.LockedIsWhole`).
- On a later packet of a marked flow the planes agree exactly when no zone of another egress claims it:
  `FlowAffinity.PlanesKeepAlikeIff`, with a packet in `FlowAffinity.FlowSplits`.
- The reader undoes no escape, so a value survives exactly when it has none of the four escaped characters:
  `ClashRoundTrip.ScalarSurvivesIff`.
- The reader ends the proxies section at the first line that is not indented (internal/importer/clash.go:160-169). YAML
  lets a list's dashes stand at the column of its key (section 8.2.3 of YAML 1.2.2); a subscription written that way reads
  as no proxy at all, and otherwise as every proxy: `ClashSubscription.SubscriptionReads`.
- The comment at internal/generator/native_only.go:152-158 calls the guard against names implied by the one before it. A
  name sent direct passes that one and is refused by this: `NativeOnly.NameGuardNeeded`, exactly when by
  `NativeOnly.VerdictIff`.
- Shadowsocks plugin options are printed under the user's own keys, unquoted (internal/exporter/clash.go:272-297). Such
  a pair reads back exactly when the reader finds the printed colon first, strips nothing off the key and meets no comma
  in it outside brackets and quotes: `FlowKeys.FlowKeyIff`. A key like `a, b` makes the whole exported document
  unreadable: `FlowKeys.CutDocument`.

## Model

| member | source | states |
|---|---|---|
| Cidr.SwallowsIffSubset | internal/pbr/pbr.go:570-606 | the containment test on prefixes holds exactly when every address of one is in the other |
| Cidr.NestedOrDisjoint | internal/pbr/pbr.go:570-577 | two prefixes are nested or share no address |
| Cidr.ContainsIsRange | internal/pbr/pbr.go:570-606 | a masked prefix is exactly the block of addresses that starts at its own |
| Cidr.CollapsePrefixes | internal/pbr/pbr.go:577-606 | the in-place sort and keep loop computes `Collapse` |
| Cidr.CollapseIsMinimalCover | internal/pbr/pbr.go:570-606 | the result is exactly the maximal input prefixes, sorted, disjoint, with the same coverage, and none can be dropped |
| Cidr.ClassifyCIDRs | internal/pbr/pbr.go:521-568 | the classifying loop computes `Classify` |
| Cidr.ClassifyCoversNamed | internal/pbr/pbr.go:516-568 | each family's list covers exactly the addresses of that family the entries name |
| Compile.Disambiguate | internal/pbr/pbr.go:300-312 | the renaming loop ends, with a name not used before |
| Compile.SortedOthers | internal/pbr/pbr.go:458-464 | ranging over the used tags in any order and sorting gives one listing |
| Compile.DomainsAre | internal/pbr/pbr.go:612-629 | a zone's domains are the keys of its entries that look like domains, each once, in order |
| Compile.DomainKeyIs | internal/pbr/pbr.go:615-618 | a leading wildcard label and a leading dot come off, in any case of letters |
| Compile.CollectZones | internal/pbr/pbr.go:328-412 | the loops over rules and lists build the zones of `Built` |
| Compile.CollectBypass | internal/pbr/pbr.go:414-432 | the bypass holds the server and peer address of every enabled kernel endpoint |
| Compile.AssignEgresses | internal/pbr/pbr.go:455-483 | marks and tables are assigned in sorted tag order |
| Compile.CompileProfile | internal/pbr/pbr.go:227-515 | the whole compilation computes `CompilePlan` |
| PlanFacts.DefaultMarks | internal/pbr/pbr.go:123-142 | default marks 1 to 255 are non-zero, inside the mask and distinct |
| PlanFacts.PlanZones | internal/pbr/pbr.go:485-494 | the plan's zones are the built ones with their own egress's mark, sorted, with distinct names |
| PlanFacts.ZoneNamesSafe | internal/pbr/pbr.go:631-642 | every set name is its rule or list prefix and the id in letters, digits and underscores, with a number when taken |
| PlanFacts.ZoneEgress | internal/pbr/pbr.go:485-493 | each zone carries the mark of the egress its rule or list names |
| PlanFacts.EgressesStem | internal/pbr/pbr.go:466-483 | every egress leads where its tag leads in the profile: block to a blackhole, an endpoint to its device, a group to the first kernel device of its members; and it fails closed exactly when it is a tunnel whose group asks for a kill switch |
| PlanFacts.CompiledPlanGood | internal/pbr/pbr.go:455-494 | with up to 254 egresses besides WAN every compiled plan meets the invariant the planes rely on |
| PlanFacts.TableBound | internal/pbr/pbr.go:457-472 | egress tables are distinct; none is the main table if and only if there are at most 103 besides WAN, and none is a table of the kernel's own if and only if there are at most 102 |
| PlanFacts.CompiledTablesDistinct | internal/pbr/pbr.go:466-472 | the tables of the non-WAN egresses of any profile differ |
| PlanFacts.CompiledPlanesAgree | internal/pbr/render_ipset.go:12-18 | for every profile, once Apply reports success, nft routes every packet of a fresh flow as the decision says, and iptables as that of the plan without blank-entry conditions, between the base rules on either side |
| Datapath.LastClaimIsLast | internal/pbr/render.go:166-213 | the decision takes the last matching zone in name order |
| Datapath.HasV6Scan | internal/pbr/render_ipset.go:351-363 | the scan decides whether the plan marks IPv6 |
| Datapath.NoV6NoClaim | internal/pbr/render.go:342-357 | a plan that counts as having no IPv6 neither bypasses nor claims any IPv6 packet |
| Nftables.RenderChain | internal/pbr/render.go:143-230 | the rendering loop emits `Chain` |
| Nftables.ChainLoadsIff | internal/pbr/render.go:57-92 | the ruleset loads exactly when no zone that prints lines has a blank first MAC entry |
| Nftables.ChainRun | internal/pbr/render.go:143-230 | what any packet gets, for any contents of the sets and any marks |
| Nftables.FreshChain | internal/pbr/render.go:143-230 | on a fresh flow the chain marks as the decision says, keeps foreign bits and saves the choice |
| Nftables.SetNamesDistinct | internal/pbr/render.go:116-137 | no two sets of a ruleset share a name |
| Iptables.SourceMatchCombos | internal/pbr/render_ipset.go:74-116 | the nested loops compute the product of the alternatives |
| Iptables.CombosAny | internal/pbr/render_ipset.go:67-116 | the expanded rules accept exactly the packets the source matchers accept, where a blank entry drops its condition |
| Iptables.TranslateMatches | internal/pbr/render_ipset.go:97-102 | the wildcard translation keeps the matched interface names |
| Iptables.EmitChain | internal/pbr/render_ipset.go:254-315 | the rendering loop emits `Chain` |
| Iptables.PlaneLoadsIff | internal/pbr/render_ipset.go:175-315 | the plane loads exactly when no set holds a prefix of length zero and no scoped zone of an installed family has more than fifteen source ports |
| Iptables.ChainRun | internal/pbr/render_ipset.go:258-315 | what any packet gets, for any contents of the sets and any marks |
| Iptables.FreshPlane | internal/pbr/render_ipset.go:254-322 | on a fresh flow the plane marks as the decision says, in either family, where a blank entry drops its condition |
| PolicyRouting.RenderIP | internal/pbr/render.go:367-416 | the rendering loop emits `InstallCmds` |
| PolicyRouting.RenderIPScript | internal/pbr/render_ipset.go:371-436 | the rendering loop emits `ScriptCmds` |
| PolicyRouting.IpTeardown | internal/pbr/render.go:419-445 | the rendering loop emits `TeardownCmds` |
| PolicyRouting.PrioritiesDistinct | internal/pbr/render.go:335-342 | all rule priorities of a family are distinct, rising and inside the plan's band |
| PolicyRouting.InstalledRules | internal/pbr/render.go:367-386 | either installer leaves exactly the plan's rules, in order, between the rules in front of its priority numbers and those behind |
| PolicyRouting.InstalledTables | internal/pbr/render.go:387-414 | either installer fills each egress table the same way and touches no other |
| PlaneEquivalence.OwnConsult | internal/pbr/render.go:315-342 | which tables a packet consults after installation: rules in front, private ranges, its mark's egress, rules behind |
| PlaneEquivalence.PrivateAre | internal/pbr/render.go:317-333 | the pinned destinations are, as numbers, 10/8, 172.16/12, 192.168/16, fc00::/7 and fe80::/10 |
| PlaneEquivalence.PlanesAgree | internal/pbr/render_ipset.go:12-18 | once Apply of a good plan reports success, each plane consults the tables of its reading of the plan, and they route alike where both choose the same table |
| PlaneEquivalence.StockRulesClean | internal/pbr/render.go:315-342 | the rules every Linux namespace starts with qualify as base: local lookup in front of the plan, main and default behind |
| KillSwitch.MarkedPacketFate | internal/pbr/render.go:367-416 | a packet marked for an egress that no earlier rule routes is looked up in its table, and goes on only when that is a tunnel without kill switch whose link is down |
| KillSwitch.PrivateStaysOnMain | internal/pbr/render.go:317-333 | after either installer a packet to such an address, whatever its mark, takes a route of the main table that can carry it, once no rule in front of the plan routes it |
| KillSwitch.KillSwitchHolds | internal/pbr/render.go:359-362 | for a blackhole or kill-switched egress it then never gets past that table, and uses the tunnel exactly while it wins on metric |
| KillSwitch.StockKillSwitch | internal/pbr/render.go:359-362 | on a router with only the stock rules such a packet takes the tunnel or is dropped, whatever the links do |
| KillSwitch.KillSwitchDropsIPv6 | internal/pbr/render.go:359-366 | with the IPv6 default metric of Linux a kill-switched tunnel that is up carries IPv4 and drops all IPv6 |
| KillSwitch.V6GateExact | internal/pbr/render.go:344-357 | a marked IPv6 packet finds its table if and only if the plan counts as marking IPv6 |
| KillSwitch.InheritedMarkUngated | internal/pbr/render.go:32-44 | under a plan without IPv6 an inherited connection mark is restored though no IPv6 rule routes it |
| KillSwitch.InheritedMarkIptables | internal/pbr/render_ipset.go:317-320 | the iptables plane leaves such a packet alone |
| KernelExamples.TunnelUpDropsIPv6 | internal/pbr/render.go:359-366 | a plan, a router and a packet of each family where this happens |
| KernelExamples.InheritedMarkExample | internal/pbr/render.go:32-44 | a plan without IPv6 and an IPv6 packet that gets an inherited mark and leaves by main |
| KernelExamples.TunnelDownLeaks | internal/pbr/apply.go:74-79 | a kill-switched tunnel down during Apply: its traffic is looked up like unmarked traffic, the script drops it |
| ProfileRoutes.GroupKillSwitch | internal/pbr/pbr.go:473-481 | a packet marked for a zone of a kill-switched group is dropped or leaves by the first kernel device of its members, the latter exactly while that is up and wins on metric |
| ProfileRoutes.NftClaim | internal/pbr/render.go:143-230 | what the nft chain marks for a zone the decision chose carries the mark that result asks for |
| ProfileRoutes.IptClaim | internal/pbr/render_ipset.go:254-315 | and so does what the iptables chain marks, without blank source entries |
| ProfileRoutes.BypassIsPeers | internal/pbr/pbr.go:414-432 | the plan bypasses exactly the server and peer addresses of the enabled kernel endpoints |
| ProfileRoutes.PeersStayOutside | internal/pbr/pbr.go:414-432 | a packet to such an address consults no egress table on either plane, whatever zone lists it |
| ProfileRoutes.FourProfileStaysOffSix | internal/pbr/render.go:344-357 | a profile that names no IPv6 address and scopes every source rule by address gets no ip -6 command at all |
| ProfileRoutes.DefaultsFitStock | internal/pbr/pbr.go:123-142 | with the shipped numbers and at most 102 egresses the rules stand at 147 to 252, between the stock ones, and the tables below those of the kernel |
| FlowAffinity.NftKeepsEgress | internal/pbr/render.go:151-165 | over any run of a flow and any changes to the sets, a marked flow keeps its egress |
| FlowAffinity.IptStaysMarked | internal/pbr/render_ipset.go:271-315 | over any such run a marked flow is never unmarked |
| FlowAffinity.IptRestoredMark | internal/pbr/render_ipset.go:271-312 | the mark any packet of a flow leaves the iptables plane with: none when bypassed, else that of the claiming zone, else the restored one |
| FlowAffinity.PlanesKeepAlikeIff | internal/pbr/render.go:151-165 | on a packet of a marked flow nft keeps the egress, and iptables agrees if and only if no zone of another egress claims the packet |
| FlowAffinity.FlowSplits | internal/pbr/render_ipset.go:271-312 | a plan, a connection and a packet the two planes send apart |
| SourceMatching.RenderingsAgreeIffNoBlank | internal/pbr/render_ipset.go:74-116 | the two renderings of a zone's source matchers, where both load, agree if and only if no entry is blank |
| SourceMatching.BlankIfaceDisagrees | internal/pbr/render.go:73-92 | a blank interface entry separates the renderings |
| SourceMatching.BlankMacDisagrees | internal/pbr/render.go:73-92 | a blank MAC entry next to a real one is ignored by nft and matches everything on the other plane |
| SourceMatching.BlankMacRefused | internal/pbr/render.go:57-82 | with a blank first MAC entry Apply fails before it changes anything |
| ApplyTeardown.Runner.Apply | internal/pbr/apply.go:64-81 | load, clear ignoring errors, install until an error |
| ApplyTeardown.Runner.Teardown | internal/pbr/apply.go:83-90 | every teardown command runs, whatever fails |
| ApplyTeardown.TeardownRestores | internal/pbr/apply.go:82-90 | teardown after any prefix of the apply commands gives the start state back |
| ApplyTeardown.TeardownUndoesApply | internal/pbr/apply.go:82-90 | so teardown after an Apply, refused, complete or stopped half way, gives the start state back |
| ApplyTeardown.ApplyForgets | internal/pbr/apply.go:61-70 | from any half-applied state, Apply ends as from the clean one, or changes nothing when the ruleset is refused |
| ApplyTeardown.ApplyIdempotent | internal/pbr/apply.go:61-63 | applying twice equals applying once, also when the first one stopped half way |
| ApplyTeardown.ApplySucceedsIff | internal/pbr/apply.go:64-81 | from a free state Apply succeeds if and only if the ruleset loads and every tunnel link is up, and then every command ran |
| FailedApply.ApplyOutcomes | internal/pbr/apply.go:64-81 | from a free state Apply is refused unchanged, completes, or stops at a tunnel link that is down |
| FailedApply.StopsAt | internal/pbr/apply.go:71-81 | it stops at the first such tunnel in installation order, right after that egress's rules |
| FailedApply.FailedApplyLeaks | internal/pbr/render_ipset.go:371-436 | when a tunnel at or before an egress is down, Apply leaves its traffic to the unmarked rules, and the script in the same state drops what is kill-switched |
| FailedApply.EgressServedIff | internal/pbr/apply.go:64-81 | whether Apply completes or stops, an egress's marked traffic is looked up in its full table if and only if no tunnel at or before it is down, and goes where unmarked traffic goes otherwise |
| FailedApply.KillSwitchAfterApply | internal/pbr/render.go:387-414 | after any Apply the traffic of a kill-switched egress ends in its own table if and only if no tunnel at or before it was down |
| Hybrid.KernelEgressScan | internal/generator/singbox.go:49-65 | the member loop decides `KernelEgress` |
| Hybrid.KernelIsTunnel | internal/generator/singbox.go:43-65 | the generator's test and the compiler's resolution agree on every tag |
| Hybrid.SplitScan | internal/generator/singbox.go:515-538 | the splitting loop computes `SplitDomainsIPs` |
| Hybrid.SplitNames | internal/generator/singbox.go:513-538 | the addresses are exactly the address entries, and no domain means only comments are left |
| Hybrid.DroppedRuleCarried | internal/generator/singbox.go:67-83 | a dropped rule has a zone of its outbound that carries exactly its addresses, less IPv6 ones the posture strips |
| Hybrid.DroppedListCarried | internal/generator/singbox.go:428-432 | the same for a dropped list and its cached feed |
| Carriage.DecidesForIff | internal/pbr/render.go:166-213 | an address in a zone of an outbound is decided for it exactly when it is not bypassed and no matching zone of another outbound sorts after all of its own |
| Carriage.DroppedRuleReaches | internal/generator/singbox.go:67-83 | a packet of a dropped rule is looked up in its own outbound's table first exactly when in addition its address is not private |
| Carriage.DroppedListReaches | internal/generator/singbox.go:428-432 | the same for a dropped list and its cached feed |
| Carriage.FirstRuleLoses | internal/pbr/pbr.go:493-494 | two dropped rules for one address, of which the kernel follows the later-named |
| RuleScope.ZonesStemFromProfile | internal/pbr/pbr.go:328-412 | every zone, scoped or not, takes exactly what the surviving matchers of one enabled rule accept, or carries exactly the kept addresses of one enabled list |
| RuleScope.EveryRuleHasZone | internal/pbr/pbr.go:328-388 | conversely every enabled rule the kernel routes, with a destination or source left, has a zone of its outbound that takes exactly that |
| RuleScope.EveryListHasZone | internal/pbr/pbr.go:389-412 | and every enabled list with an address left one that carries exactly its kept addresses |
| RuleScope.RuleStepTakes | internal/pbr/pbr.go:360-388 | the zone a rule adds takes exactly the packets its surviving matchers accept, and is scoped exactly when a source matcher survives |
| RuleScope.TakesOnlyNamedIff | internal/pbr/pbr.go:360-388 | it takes only packets the rule names, unless it takes some and the rule has a port matcher or has lost all its source addresses or all its destinations; then and only then it takes others |
| RuleScope.LostWhen | internal/pbr/pbr.go:363-372 | for a validated rule both losses are read off the profile: a v4-only tunnel and only IPv6 entries, or destinations by name only |
| RuleScope.ReachedIff | internal/pbr/render_ipset.go:277-290 | a zone takes some packet exactly when sources and destinations are left in one family |
| RuleScope.TakesNamed | internal/pbr/pbr.go:373-388 | conversely it takes every packet the rule names whose addresses are not stripped |
| RuleScope.SourcesLost | internal/pbr/pbr.go:363-381 | a rule for IPv6 clients to an IPv4 destination through a v4-only tunnel builds a zone for every client |
| RuleScope.DestinationsLost | internal/pbr/pbr.go:363-381 | a rule for IPv6 destinations of some client through one builds a zone for every IPv4 destination of that client |
| RuleScope.SourceAndMacExample | internal/pbr/pbr.go:363-381 | an IPv6 source beside a MAC: the zone stays scoped and takes every source address of the MAC |
| RuleScope.DomainExample | internal/pbr/pbr.go:350-360 | a domain rule of one client takes every destination of that client |
| Emission.HybridReachable | internal/generator/singbox.go:96-149 | the recursive visit ends with the least set closed under group membership from the roots |
| Emission.LeastUnique | internal/generator/singbox.go:132-148 | that set is determined by the roots |
| Emission.EmitOutbounds | internal/generator/singbox.go:196-300 | the emission loops write exactly the tags of `Written` |
| Emission.RouteReferences | internal/generator/singbox.go:1426-1501 | the route loops refer to exactly the tags of `Matched`, compute the final, and ask for the terminal reject exactly when an enabled default is block |
| Emission.ReferencesResolve | internal/generator/singbox.go:85-95 | in a valid profile every tag the rules and final lead to through any nesting is written, unless the chain leads on through a group called direct |
| Emission.LeftOutIff | internal/generator/singbox.go:197-203 | a usable tag is left out exactly when it is kernel-class and unreachable |
| Emission.UnusableUnwritten | internal/generator/singbox.go:196-300 | and a tag that is not usable, such as that of a disabled endpoint, is never written |
| Emission.ChainEndsIff | internal/generator/singbox.go:85-95 | in a valid profile the last tag of any chain of references is written exactly when it is direct, reachable, or not kernel-class |
| Emission.GroupDanglesIff | internal/generator/singbox.go:287-300 | a written group names an unwritten tag exactly when it is unreachable, not kernel-class, and nests an omitted kernel tag |
| Emission.OmittedIsGroup | internal/generator/singbox.go:287-300 | that tag is then itself a group, or a kernel endpoint without interface, or the outer group is called like a builtin |
| Emission.NestedGroupDangles | internal/generator/singbox.go:287-300 | a profile where this happens |
| Emission.NestedIsValid | internal/model/validate.go:21-164 | that profile passes validation under all item checks that accept its endpoint and its rule |
| Emission.DetourDanglesIff | internal/generator/singbox.go:436-452 | an explicit download detour is unwritten exactly when it is block or an omitted kernel tag |
| Emission.DetourDangles | internal/generator/singbox.go:436-452 | a valid profile with such a detour |
| SingboxRoute.FinalFollowsDefault | internal/generator/singbox.go:1434-1446 | in a valid profile final is the target of the one enabled default, or direct beside a terminal reject when that is block; without one it is direct |
| SingboxRoute.BuiltinsFoldCase | internal/generator/singbox.go:21-37 | builtin targets are recognised in any case, other tags taken as they are |
| SingboxRoute.RuleRoutedIff | internal/generator/singbox.go:1447-1494 | the route refers to a rule's target exactly when it is enabled, no default, not block, has a matcher sing-box can express, and is not an address rule for a kernel tunnel |
| SingboxRoute.ListRoutedIff | internal/generator/singbox.go:416-487 | the same for a list with a source or an entry |
| SingboxRoute.RuleServed | internal/generator/singbox.go:67-83 | every unstripped address an enabled rule names is served by sing-box or carried by a kernel zone of its outbound |
| SingboxRoute.ListServed | internal/generator/singbox.go:428-432 | the same for the entries of a list |
| NativeOnly.ProfileNativeOnlyScan | internal/generator/native_only.go:281-297 | the counting loop decides `ProfileNativeOnly` |
| NativeOnly.DatapathNativeOnly | internal/generator/native_only.go:162-243 | the staged scans decide `Verdict` |
| NativeOnly.VerdictIff | internal/generator/native_only.go:136-243 | the verdict in the profile's own fields, both ways: fast mode, only kernel endpoints, defaults direct, no names, and every rule and list for a tunnel made of addresses only |
| NativeOnly.NameGuardNeeded | internal/generator/native_only.go:152-158 | a profile that only the guard against names refuses |
| NativeOnly.StrippedIffAwgOnlyV4 | internal/generator/native_only.go:215-241 | under the verdict an address is stripped exactly when it is IPv6 and the outbound is an AmneziaWG endpoint declaring only IPv4 |
| NativeOnly.VerdictCarriesRule | internal/generator/native_only.go:119-160 | under the verdict every other address of an enabled rule for an endpoint or group is in a kernel zone of it |
| NativeOnly.VerdictCarriesList | internal/generator/native_only.go:119-160 | the same for lists and their cached feeds |
| NativeOnly.VerdictLeavesNothing | internal/generator/native_only.go:145-151 | under the verdict the generated route would refer to nothing but direct |
| FailSafe.Manager.Arm | internal/failsafe/failsafe.go:96-125 | a new window: next epoch, claimable, freshly armed, with its keep deadline |
| FailSafe.Manager.Tick | internal/failsafe/failsafe.go:229-273 | one tick is `Ticking` on the guarded fields |
| FailSafe.Manager.ClaimRollback | internal/failsafe/failsafe.go:195-203 | won only by the current undispatched window, and by no one after |
| FailSafe.Manager.Confirm | internal/failsafe/failsafe.go:276-284 | closes the window and changes nothing else |
| FailSafe.Manager.RollbackNow | internal/failsafe/failsafe.go:287-313 | fires exactly when a callback is stored and not dispatched, and leaves nothing to claim |
| FailSafe.Manager.MarkRollbackFailed | internal/failsafe/failsafe.go:216-223 | records the failure and changes nothing else |
| FailSafe.TickDecides | internal/failsafe/failsafe.go:225-273 | which tick rolls back, reboots or ends the window, from the probe history alone |
| FailSafe.PhaseTells | internal/failsafe/failsafe.go:229-273 | the phase a caller is shown, from the decisions so far and the last probe |
| FailSafe.HealthyEnds | internal/failsafe/failsafe.go:34-42 | as shipped, a window whose probes all succeed ends at the first tick three minutes after it was armed |
| FailSafe.RollbackDecidedOnce | internal/failsafe/failsafe.go:262-266 | a window decides a rollback at most once |
| FailSafe.LongFailureRollsBack | internal/failsafe/failsafe.go:262-266 | a long enough failing stretch does decide one |
| FailSafe.RebootAfterRollback | internal/failsafe/failsafe.go:256-266 | with ticks at most RebootAfter minus RollbackAfter apart a reboot is preceded by a rollback |
| FailSafe.WiderGapSkipsRollback | internal/failsafe/failsafe.go:34-42 | at the shipped durations one more millisecond between ticks loses it |
| ApplyProtocol.RunKeeps | internal/server/failsafe.go:48-105 | every interleaving keeps the protocol invariant |
| ApplyProtocol.LoadedIsOwn | internal/server/failsafe.go:19-22 | a closure past the lock always loads its own window's epoch, though the loop starts before the store |
| ApplyProtocol.RollbackStartedOnce | internal/failsafe/failsafe.go:188-203 | in every interleaving a window's callback is started at most once |
| ApplyProtocol.RollbackStaysInWindow | internal/server/failsafe.go:62-69 | a closure restores only while its window is current, over its own Apply, the same configuration, or a later saved Apply |
| ApplyProtocol.RestoredOnce | internal/failsafe/failsafe.go:188-203 | in every interleaving a window restores at most once |
| ApplyProtocol.BaselineKept | internal/server/profile.go:366-382 | while a window is open no step replaces the rollback target |
| ApplyProtocol.BaseChanges | internal/server/profile.go:366-382 | the target changes only when an Apply that read the window closed takes its backup, and becomes what is live |
| ApplyProtocol.CommitCloses | internal/failsafe/failsafe.go:276-284 | a confirmation and the end of a saved Apply close the window and cancel its loop, and touch neither the live configuration nor the target |
| ApplyProtocol.OnlyArmOpens | internal/failsafe/failsafe.go:96-125 | only an unsaved Apply that has written opens a window, always the next one, and cancels the loop of the one before |
| ApplyProtocol.ClosedUntilArm | internal/failsafe/failsafe.go:96-125 | in every interleaving a closed window stays closed until the next one is armed |
| ApplyProtocol.CommittedBecomesTarget | internal/server/profile.go:366-382 | in every interleaving, the next Apply to read after a confirmation or saved Apply, before another window, takes what is live as the rollback target |
| ApplyProtocol.ManualCloses | internal/failsafe/failsafe.go:287-313 | a manual rollback closes the window at once and starts its closure unless one was started |
| ApplyProtocol.FailedRestoreShown | internal/failsafe/failsafe.go:213-223 | a rollback that cannot restore leaves the live configuration and is shown as failed at its thread's next step, whatever others do in between |
| ApplyProtocol.ClosedLoopEnds | internal/failsafe/failsafe.go:147-158 | the loop of a closed or cancelled window ends within two of its own steps |
| ApplyProtocol.ConfirmedStays | internal/failsafe/failsafe.go:275-284 | a window closed while no rollback was decided or dispatched restores nothing until asked for or a new window |
| ApplyProtocol.ClosedRestoresIff | internal/failsafe/failsafe.go:188-203 | a closed window can restore unasked if and only if a started closure of it is not done or a loop of it is about to claim |
| ApplyProtocol.SavedApplyOverwritten | internal/server/profile.go:480-485 | a run where a rollback claimed earlier overwrites a saved Apply |
| ApplyProtocol.ConfirmedOverwritten | internal/failsafe/failsafe.go:276-284 | a run where a confirmed configuration is rolled back |
| ApplyProtocol.RejectedBecomesBaseline | internal/failsafe/failsafe.go:287-301 | a run where the configuration the user rolled back becomes the rollback target |
| ApplyProtocol.RejectedBaselineIff | internal/failsafe/failsafe.go:287-313 | while a rollback is owed, an Apply takes the configuration being rolled back as target exactly when it reads the window closed |
| CommitRace.OneByOneIsWhole | internal/core/singbox.go:339-350 | in every run in which commits do not overlap, the baseline is at every moment a configuration that was live |
| CommitRace.LockedIsWhole | internal/core/singbox.go:345-350 | saved Applies alone never tear it |
| CommitRace.ConfirmTearsIff | internal/server/failsafe.go:128-130 | from a whole baseline an arriving confirmation can tear it if and only if another commit is still to come or under way |
| CommitRace.TornForGood | internal/atomicfile/atomicfile.go:16-54 | a run that ends with a baseline mixed from two configurations |
| Yaml.SplitTopLevelScan | internal/importer/clash.go:903-934 | the scanner computes `SplitTopLevel` |
| Yaml.StripInlineCommentScan | internal/importer/clash.go:858-886 | the scanner computes `StripInlineComment` |
| Yaml.CommentRemoved | internal/importer/clash.go:852-886 | what is removed is exactly what follows the first unprotected hash behind a blank, with the blanks before it; nothing without one |
| Yaml.QuotesProtect | internal/importer/clash.go:903-946 | in either kind of quotes commas, hashes and colons are text, and the quotes come off |
| Yaml.BracketsProtect | internal/importer/clash.go:903-946 | in either kind of brackets they are too, and the brackets stay |
| Yaml.SplitYAMLKV | internal/importer/clash.go:795-834 | the scanner computes `SplitKV` |
| ClashPrinter.NeedsQuoteScan | internal/exporter/clash.go:733-778 | the scan decides `NeedsQuote` |
| ClashPrinter.YamlScalar | internal/exporter/clash.go:689-711 | the escaping loop computes `Scalar` |
| ClashPrinter.QuotedIffMisread | internal/exporter/clash.go:733-778 | a text is quoted exactly when bare it would be empty, another type or YAML syntax |
| ClashPrinter.QuotedDenotes | internal/exporter/clash.go:689-711 | quoted contents denote the value printed, by the escapes of YAML |
| ClashPrinter.RenderPairs | internal/exporter/clash.go:608-614 | the pair loop prints the non-empty pairs in order |
| ClashPrinter.ClashKV.Add | internal/exporter/clash.go:555-559 | appends one quoted field |
| ClashPrinter.ClashKV.AddIf | internal/exporter/clash.go:562-566 | appends one only when it has a value |
| ClashPrinter.ClashKV.AddBool | internal/exporter/clash.go:580-582 | appends a bare boolean |
| ClashPrinter.ClashKV.AddOpts | internal/exporter/clash.go:604-647 | appends one flow map of the non-empty pairs and the host header, or nothing; beside a host a pair called headers is verbatim |
| ClashPrinter.ClashKV.Render | internal/exporter/clash.go:649-664 | the builder's items rendered line by line |
| ClashParser.FoldFlowMapping | internal/importer/clash.go:327-359 | the recursive loop computes `FoldFlow` |
| ClashParser.ParseBlockProxy | internal/importer/clash.go:245-310 | the indentation loop computes `ParseBlock` |
| ClashParser.SeqItemHasDash | internal/importer/clash.go:172-181 | a sequence item always has its dash in the line |
| ClashParser.ReadSection | internal/importer/clash.go:149-209 | the section loop computes `ReadFrom` |
| ClashParser.ExtractProxies | internal/importer/clash.go:104-210 | the document scan computes `Extract` |
| ClashRoundTrip.ScalarReads | internal/exporter/clash.go:689-778 | a printed value without escaped characters passes every scanner and unquotes to itself |
| ClashRoundTrip.ScalarSurvivesIff | internal/importer/clash.go:936-946 | a value survives printing and reading exactly when it has none of the four escaped characters |
| ClashRoundTrip.KVReads | internal/importer/clash.go:795-834 | a printed pair is split where it was joined exactly when its key reads |
| ClashRoundTrip.FlowReads | internal/importer/clash.go:327-359 | a printed flow map whose keys are flow keys, nested host header included, reads back as its entries |
| ClashRoundTrip.RenderBlock | internal/exporter/clash.go:198-246 | a proxy's builder calls, rendered |
| ClashRoundTrip.BlockReads | internal/importer/clash.go:245-310 | a printed block reads back as its entries, a repeated key keeping its last value |
| ClashDocument.DocumentRoundTrip | internal/exporter/clash.go:128-145 | every exported document reads back as the flat map of each of its proxies, in order |
| ClashBlocks.TreeReads | internal/importer/clash.go:237-310 | a tree of scalars, flow maps, lists and nested mappings in block style, at any columns that deepen, reads back as its leaves under their dotted paths |
| ClashBlocks.EachPathHeld | internal/importer/clash.go:237-310 | with no path given twice each leaf is found under its own path, list items joined by commas in order, and nothing else is |
| ClashBlocks.NoteChangesNothing | internal/importer/clash.go:822-834 | a comment behind a complete value changes nothing |
| ClashSubscription.SubscriptionReads | internal/importer/clash.go:104-210 | a subscription of block and flow proxies, blank and comment lines anywhere, reads back as every proxy in order exactly when its dashes are indented, and as none otherwise |
| ClashSubscription.InlineSubscriptionReads | internal/importer/clash.go:212-236 | a list of flow maps on the line of the key reads back as the map of each |
| ClashSubscription.WsMeaning | internal/importer/clash.go:237-244 | a proxy with two levels of nesting and a list, and the map it reads as |
| FlowKeys.FlowKeyIff | internal/exporter/clash.go:600-618 | a printed flow pair reads back as itself exactly when its key reads and has no comma at top level |
| FlowKeys.CommaKeyFails | internal/importer/clash.go:327-359 | a key made of a plain word, a comma and anything makes the reader refuse the map |
| FlowKeys.CutDocument | internal/exporter/clash.go:272-297 | one proxy with a plugin option key of that kind makes the reader refuse the whole document |
| FlowKeys.KeyExamples | internal/importer/clash.go:795-834 | a colon in a key is harmless unless a blank follows |
| GroupCycles.Walk.Dfs | internal/model/validate.go:140-157 | the coloured walk ends; it fails only on a cycle, and otherwise finishes the node and keeps the stack |
| GroupCycles.CheckCycles | internal/model/validate.go:121-164 | the walk over all groups succeeds exactly when the graph has no cycle |
| Validate.RegisterEndpoints | internal/model/validate.go:25-79 | exactly the endpoint lists with new non-empty ids and passing items are accepted, and the maps record them |
| Validate.RegisterGroups | internal/model/validate.go:81-93 | the same for groups |
| Validate.CheckMembers | internal/model/validate.go:95-119 | accepted exactly when every member is direct, or another enabled endpoint or group |
| Validate.Adjacency | internal/model/validate.go:127-134 | the edges are exactly the nested-group memberships |
| Validate.CheckNesting | internal/model/validate.go:121-164 | accepted exactly when no group nests itself through any chain |
| Validate.CheckRules | internal/model/validate.go:166-244 | accepted exactly when ids are new, enabled rules pass and resolve, and at most one is a default |
| Validate.CheckLists | internal/model/validate.go:246-281 | accepted exactly when ids are new and every list's targets resolve |
| Validate.ValidateProfile | internal/model/validate.go:19-283 | the whole check accepts exactly the structurally valid profiles |
| Supervisor.SingBox.Start | internal/core/singbox.go:132-140 | starts or adopts the core, and on success the intent is set |
| Supervisor.SingBox.StartIfDesiredDead | internal/core/singbox.go:152-164 | never changes the intent, and starts only what was wanted |
| Supervisor.SingBox.TakeProcess | internal/core/singbox.go:202-207 | Stop's locked section hands the process over and clears the intent |
| Supervisor.EveryProcessAccounted | internal/core/singbox.go:132-270 | in every interleaving a live process is the tracked one or held by a Stop in progress |
| Supervisor.AtMostOneCore | internal/core/singbox.go:132-270 | with no Stop in progress at most one core lives |
| Supervisor.WatchdogRevives | internal/core/singbox.go:142-164 | in every interleaving a wanted dead core runs again, as a new process, right after a watchdog step that can spawn it; any other is left as it is |
| Supervisor.TwoCoresDuringStop | internal/core/singbox.go:202-207 | a Start during a Stop runs a second core beside the first |
| Supervisor.StoppedStaysDown | internal/core/singbox.go:142-151 | after a Stop's locked section nothing starts until a Start or Reload sets the intent |
| Supervisor.StopEndsDead | internal/core/singbox.go:208-246 | in every interleaving a Stop of a tracked process ends only after that process has been waited for |
| Supervisor.KillEndsStop | internal/core/singbox.go:236-246 | a Stop that has to kill leaves its process once the kill and the exit goroutine ran |
| Supervisor.ReloadKeepsIntent | internal/core/singbox.go:255-270 | in every interleaving the intent is set at the moment a Reload past its Stop ends, even when the new core does not start, and only a later Stop clears it |
| Supervisor.ReloadAbandonedIff | internal/core/singbox.go:255-258 | a Reload ends without trying to start the core exactly when its kill returned an error, which the Reload returns |
| Supervisor.AbandonedReloadLosesIntent | internal/core/singbox.go:255-258 | such a run, ending down and unsupervised |
| Failover.ResolveEgressMembers | internal/keenetic/kpbr.go:45-59 | the member loop computes `EgressMembers` |
| Failover.FirstChoiceIsCompiledEgress | internal/keenetic/kpbr.go:42-59 | with no endpoint called like a builtin, the cron's first tunnel for a compiled egress is the compiler's interface exactly when that is not called like a token |
| Failover.FirstChoiceIff | internal/keenetic/kpbr.go:23-59 | for every profile and tunnel egress the cron's first tunnel is the compiler's interface exactly when the compiler's member is not called like a builtin and the interface not like a token, or later members lead to the same one |
| Failover.BuiltinEndpointMisleads | internal/keenetic/kpbr.go:45-59 | with an endpoint called direct the compiler takes its interface and the cron the WAN |
| Failover.SetTable | internal/keenetic/kpbr.go:111-143 | the election loop computes `Elect` |
| Failover.RunOutcome | internal/keenetic/kpbr.go:111-143 | one run keeps a healthy tunnel, else takes the first that answers, else counts towards the fallback |
| Failover.StaysIff | internal/keenetic/kpbr.go:113-135 | a table stays on its tunnel exactly while that is not the WAN, still a member and answers; else the first tunnel that answers takes over |
| Failover.LeavesOnlyWhenDown | internal/keenetic/kpbr.go:113-121 | over every sequence of runs a table leaves a tunnel only in a run where that failed its probe or is no member |
| Failover.CountBelowStreak | internal/keenetic/kpbr.go:122-142 | the counter never exceeds the runs in a row with every tunnel down, and equals them when every list has a fallback |
| Failover.FallbackNeedsThreeRuns | internal/keenetic/kpbr.go:122-142 | over every sequence of runs WAN or blackhole is installed only in the third such run in a row or later |
| Failover.ThirdRunFallsBack | internal/keenetic/kpbr.go:122-142 | and with a fallback in every list, it is installed then |
| Failover.GroupFallback | internal/keenetic/kpbr.go:23-59 | the cron's list of a group falls back to WAN when its first builtin member is direct, and to a blackhole when it is block |
| Failover.GroupFallsBack | internal/keenetic/kpbr.go:23-142 | so the third run in a row with every tunnel of the group down installs just that |

## Left out

- Hypotheses of the plane results: plans without domain zones, default numbering, at most 103 egresses besides WAN, no interface name ending in a plus, which validation refuses, no packet already marked by the S86 guard, and base rules that stay out of the plan's priority numbers and ignore the owned mark bits.
- The sets and rules of the iptables plane are taken as loaded: exactly when they are is `Iptables.PlaneLoadsIff`; the script's other commands are not modelled as failing.
- RuleScope.TakesOnlyNamedIff: a packet does not show the domain it was looked up by, so a rule names a destination by address only.
- CommitRace.ConfirmTearsIff: a write is one step, and failing opens, writes and syncs are left out; nothing in the repository reads the baseline file.
- Base rules select on the destination or the mark only, and tables are consulted by destination.
- Routes that vanish with a link that goes down after Apply, and stay away until the next one.
- Whether nft takes an empty interface name depends on its version: here it does, as the name of no interface.
- Text of nft, iptables, ipset, ip and shell lines: lines are datatypes.
- Warnings of the compiler, MASQUERADE, MSS clamping, flow offload and dnsmasq rendering: they do not change the routing decision.
- Set name truncation in the ipset plane: it rests on a hash prefix.
- Parsing of addresses, prefixes, MACs and floats: parsed values are inputs, and whether a text is a float only decides its quoting. An IPv4-mapped IPv6 text counts as the family it parses to.
- Whitespace around source matcher entries: texts arrive trimmed.
- Case folding beyond ASCII, and the hash in AmneziaWG interface names, which is an opaque token.
- Validate.ValidateProfile: the checks on one item's own fields (ports, link settings, protocol parameters, address syntax) are parameters, and the error text is not modelled.
- ApplyProtocol.RollbackStaysInWindow: the live configuration is one value, so sing-box file, kernel plan and plugins change together; restoring without a backup and the reboot closure are left out.
- ApplyProtocol.RunKeeps: a run loop may outlive its cancellation by any number of ticks, which only adds runs.
- FailSafe.Manager.Arm: epochs are unbounded, and timers and goroutines are the events of `ApplyProtocol`.
- ClashDocument.DocumentRoundTrip: excludes list values and the four escaped characters, which the reader does not invert, and a pair called `headers` beside a host, which no caller passes. Field keys are the printers' own plain words; keys in a flow map, which may be the user's, are flow keys, and the map's text starts no comment and stays on one line.
- SingboxRoute.RuleRoutedIff: which targets are referred to, not the order of the written rules.
- ClashBlocks.TreeReads: a key is a plain word, and siblings stand at one column; the fields of a proxy that the importer then looks up are not modelled.
- Emission.EmitOutbounds: generation errors of single outbounds, their fields and the plugin records.
- Emission.ReferencesResolve: a chain that goes on through a group called `direct`, a name validation does not refuse, is excluded: the route reads that tag as the builtin. `Emission.ChainEndsIff` covers it.
- Supervisor.EveryProcessAccounted: processes are numbers, signals only make an exit possible, and log capture is not modelled.
- Failover.SetTable: the probe's own signals (traffic counters, handshakes, ping), the run lock and failing route commands.
- HTTP handlers, the RCI and Clash clients, list fetching, device provisioning, share links, per-protocol field mapping, health windows and job history: input and output, or easier than the parts above.
