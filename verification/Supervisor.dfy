/**
 The sing-box process supervisor of `internal/core/singbox.go`. `Core` holds the fields its
 mutex guards plus the process table; the class below updates them as the source does. Stops
 and reloads run on after their locked section, so they are threads, and every sequence of
 events is an interleaving. A step that cannot be taken leaves the state as it is.
 */
module Supervisor {
  import opened Profiles

  /** Running, exited but not yet waited for, and waited for with `done` closed. */
  datatype Proc = Running | Exited | Reaped

  datatype Core = Core(desired: bool, cmd: Option<nat>, procs: map<nat, Proc>, next: nat)

  const IDLE := Core(false, None, map[], 0)

  /** `aliveLocked`: a process is tracked and its `done` is still open. */
  predicate Alive(c: Core) { c.cmd.Some? && c.cmd.value in c.procs && c.procs[c.cmd.value] != Reaped }

  predicate IsRunning(c: Core, pid: nat) { pid in c.procs && c.procs[pid] == Running }

  /** `startLocked`; `spawns` is false without a binary or when the spawn fails. */
  function Launching(c: Core, spawns: bool): Core {
    if spawns then Core(true, Some(c.next), c.procs[c.next := Running], c.next + 1) else c
  }

  function Starting(c: Core, spawns: bool): Core {
    if Alive(c) then c.(desired := true) else Launching(c, spawns)
  }

  /** The watchdog's step. */
  function Restarting(c: Core, spawns: bool): Core {
    if !c.desired || Alive(c) then c else Launching(c, spawns)
  }

  function Stopping(c: Core): Core { c.(desired := false, cmd := None) }

  class SingBox {
    var desired: bool
    var cmd: Option<nat>
    var procs: map<nat, Proc>
    var next: nat

    function Snapshot(): Core
      reads this
    {
      Core(desired, cmd, procs, next)
    }

    constructor ()
      ensures Snapshot() == IDLE
    {
      desired, cmd, procs, next := false, None, map[], 0;
    }

    method AliveLocked() returns (alive: bool)
      ensures alive <==> Alive(Snapshot())
    {
      if cmd.None? {
        return false;
      }
      return cmd.value in procs && procs[cmd.value] != Reaped;
    }

    method StartLocked(spawns: bool) returns (ok: bool)
      modifies this
      ensures Snapshot() == Launching(old(Snapshot()), spawns) && ok == spawns
    {
      if !spawns {
        return false;
      }
      procs := procs[next := Running];
      cmd := Some(next);
      desired := true;
      next := next + 1;
      return true;
    }

    method Start(spawns: bool) returns (ok: bool)
      modifies this
      ensures Snapshot() == Starting(old(Snapshot()), spawns)
      ensures ok <==> Alive(old(Snapshot())) || spawns
      ensures ok ==> desired && Alive(Snapshot())
      ensures Alive(old(Snapshot())) ==> cmd == old(cmd) && procs == old(procs)
      ensures !Alive(old(Snapshot())) && spawns ==> cmd == Some(old(next)) && IsRunning(Snapshot(), old(next))
    {
      var alive := AliveLocked();
      if alive {
        desired := true;
        return true;
      }
      ok := StartLocked(spawns);
    }

    method StartIfDesiredDead(spawns: bool) returns (started: bool)
      modifies this
      ensures Snapshot() == Restarting(old(Snapshot()), spawns)
      ensures started <==> old(desired) && !Alive(old(Snapshot())) && spawns
      ensures started ==> Alive(Snapshot()) && cmd == Some(old(next)) && IsRunning(Snapshot(), old(next))
      ensures !started ==> Snapshot() == old(Snapshot())
      ensures desired == old(desired)
    {
      var alive := AliveLocked();
      if !desired || alive {
        return false;
      }
      started := StartLocked(spawns);
    }

    /** The locked section of `Stop`: the process it returns is the caller's to end. */
    method TakeProcess() returns (held: Option<nat>)
      modifies this
      ensures Snapshot() == Stopping(old(Snapshot())) && held == old(cmd)
      ensures !desired && cmd == None && procs == old(procs) && next == old(next)
    {
      desired := false;
      held := cmd;
      cmd := None;
    }
  }

  // ---- interleavings ----

  /** Where a Stop is after its locked section; the last two are a Reload's own steps. */
  datatype Pc = Checking | Signalling | Grace | Killing | Draining(failed: bool) | Relaunching | Asserting | Ended

  datatype Stopper = Stopper(pid: nat, pc: Pc, reload: bool)

  datatype State = State(core: Core, stops: seq<Stopper>)

  const START := State(IDLE, [])

  /**
   `Stop` begins a Stop or the Stop of a Reload. `Exit` is a process ending on its own or from
   a signal, `Reap` its exit goroutine. `Move` advances one Stop; `go` picks among outcomes.
   */
  datatype Event =
    | Start(spawns: bool) | Watchdog(spawns: bool) | Stop(reload: bool)
    | Exit(pid: nat) | Reap(pid: nat) | Move(i: nat, go: bool)

  function After(reload: bool): Pc { if reload then Relaunching else Ended }

  predicate IsReaped(c: Core, pid: nat) { pid in c.procs && c.procs[pid] == Reaped }

  function KillProc(c: Core, pid: nat): Core {
    if pid in c.procs && c.procs[pid] == Running then c.(procs := c.procs[pid := Exited]) else c
  }

  function StopMove(c: Core, t: Stopper, go: bool): (Core, Stopper) {
    match t.pc
    case Checking => (c, t.(pc := if IsReaped(c, t.pid) then After(t.reload) else Signalling))
    case Signalling => (c, t.(pc := if go then Grace else Killing))
    case Grace => (c, t.(pc := if IsReaped(c, t.pid) then After(t.reload) else if go then Killing else Grace))
    case Killing => if go then (KillProc(c, t.pid), t.(pc := Draining(false))) else (c, t.(pc := Draining(true)))
    case Draining(failed) =>
      (c, if !IsReaped(c, t.pid) then t else t.(pc := if failed then Ended else After(t.reload)))
    case Relaunching => (Starting(c, go), t.(pc := if Alive(c) || go then Ended else Asserting))
    case Asserting => (c.(desired := true), t.(pc := Ended))
    case Ended => (c, t)
  }

  function Next(s: State, e: Event): State {
    var c := s.core;
    match e
    case Start(spawns) => s.(core := Starting(c, spawns))
    case Watchdog(spawns) => s.(core := Restarting(c, spawns))
    case Stop(reload) =>
      var t := if c.cmd.Some? then Stopper(c.cmd.value, Checking, reload) else Stopper(0, After(reload), reload);
      State(Stopping(c), s.stops + [t])
    case Exit(pid) => s.(core := KillProc(c, pid))
    case Reap(pid) =>
      if pid in c.procs && c.procs[pid] == Exited then s.(core := c.(procs := c.procs[pid := Reaped])) else s
    case Move(i, go) =>
      if i >= |s.stops| then s
      else var (core, t) := StopMove(c, s.stops[i], go); State(core, s.stops[i := t])
  }

  function Run(s: State, es: seq<Event>): State
    decreases es
  {
    if es == [] then s else Run(Next(s, es[0]), es[1..])
  }

  /** The Stop still answers for its process. */
  predicate Holding(t: Stopper) { t.pc in {Checking, Signalling, Grace, Killing} || t.pc.Draining? }

  predicate HeldBy(s: State, i: nat, pid: nat) { i < |s.stops| && Holding(s.stops[i]) && s.stops[i].pid == pid }

  ghost predicate Held(s: State, pid: nat) { exists i: nat :: HeldBy(s, i, pid) }

  /** Every live process is the tracked one or in the hands of a Stop in progress. */
  ghost predicate Accounted(s: State) {
    && (forall p :: p in s.core.procs ==> p < s.core.next)
    && (s.core.cmd.Some? ==> s.core.cmd.value in s.core.procs)
    && (forall p :: p in s.core.procs && s.core.procs[p] == Running ==> s.core.cmd == Some(p) || Held(s, p))
  }

  /** Events that touch no Stop keep every hold. */
  lemma HoldsStay(s: State, core: Core, more: seq<Stopper>)
    ensures forall p :: Held(s, p) ==> Held(State(core, s.stops + more), p)
  {
    forall p | Held(s, p) ensures Held(State(core, s.stops + more), p) {
      var i: nat :| HeldBy(s, i, p);
      assert HeldBy(State(core, s.stops + more), i, p);
    }
  }

  lemma MoveHolds(s: State, i: nat, core: Core, t: Stopper)
    requires i < |s.stops|
    requires Holding(s.stops[i]) ==> (Holding(t) && t.pid == s.stops[i].pid) || IsReaped(core, s.stops[i].pid)
    ensures forall p :: Held(s, p) ==> Held(State(core, s.stops[i := t]), p) || IsReaped(core, p)
  {
    var n := State(core, s.stops[i := t]);
    forall p | Held(s, p) ensures Held(n, p) || IsReaped(core, p) {
      var k: nat :| HeldBy(s, k, p);
      if k != i || Holding(t) { assert !IsReaped(core, p) ==> HeldBy(n, k, p); }
    }
  }

  lemma NextAccounted(s: State, e: Event)
    requires Accounted(s)
    ensures Accounted(Next(s, e))
  {
    var n := Next(s, e);
    match e
    case Stop(reload) =>
      HoldsStay(s, n.core, [n.stops[|s.stops|]]);
      if s.core.cmd.Some? { assert HeldBy(n, |s.stops|, s.core.cmd.value); }
    case Move(i, go) =>
      if i < |s.stops| { MoveHolds(s, i, n.core, n.stops[i]); }
    case _ =>
      HoldsStay(s, n.core, []);
      assert s.stops + [] == s.stops;
  }

  lemma {:induction false} RunAccounted(s: State, es: seq<Event>)
    requires Accounted(s)
    ensures Accounted(Run(s, es))
    decreases es
  {
    if es != [] {
      NextAccounted(s, es[0]);
      RunAccounted(Next(s, es[0]), es[1..]);
    }
  }

  /** In every interleaving a live process is tracked, or held by a Stop in progress. */
  lemma EveryProcessAccounted(es: seq<Event>, p: nat)
    requires var c := Run(START, es).core; p in c.procs && c.procs[p] == Running
    ensures Run(START, es).core.cmd == Some(p) || Held(Run(START, es), p)
  {
    RunAccounted(START, es);
  }

  /** With no Stop in progress there is at most one live process. */
  lemma AtMostOneCore(es: seq<Event>, p: nat, q: nat)
    requires var c := Run(START, es).core; p in c.procs && q in c.procs && c.procs[p] == Running == c.procs[q]
    requires forall t :: t in Run(START, es).stops ==> !Holding(t)
    ensures p == q
  {
    RunAccounted(START, es);
  }

  /** A Start between a Stop's locked section and its end runs a second core beside the first. */
  lemma TwoCoresDuringStop()
    ensures var s := Run(START, [Start(true), Stop(false), Start(true)]);
      s.core.procs == map[0 := Running, 1 := Running] && s.stops == [Stopper(0, Checking, false)]
  {
    var s1 := Next(START, Start(true));
    var s2 := Next(s1, Stop(false));
    var s3 := Next(s2, Start(true));
    assert Run(s3, []) == s3;
    assert [Start(true), Stop(false), Start(true)][1..] == [Stop(false), Start(true)];
    assert [Stop(false), Start(true)][1..] == [Start(true)];
    assert [Start(true)][1..] == [];
  }

  // ---- revival ----

  /**
   In every interleaving, a core that is wanted and dead is running again right after a
   watchdog step that can spawn it, as a new process; one that is alive or not wanted is left
   as it is.
   */
  lemma WatchdogRevives(es: seq<Event>, spawns: bool)
    ensures var c, n := Run(START, es).core, Next(Run(START, es), Watchdog(spawns)).core;
      && (c.desired && !Alive(c) && spawns ==>
            n.desired && n.cmd == Some(c.next) && c.next !in c.procs && IsRunning(n, c.next) && Alive(n))
      && (!c.desired || Alive(c) || !spawns ==> n == c)
  {
    RunAccounted(START, es);
  }

  // ---- intent ----

  /** The steps that state the intent to run: an explicit Start, and the end of a Reload. */
  predicate SetsIntent(s: State, e: Event) {
    || e.Start?
    || (e.Move? && e.i < |s.stops| && s.stops[e.i].pc in {Relaunching, Asserting})
  }

  ghost predicate NoIntent(s: State, es: seq<Event>)
    decreases es
  {
    es == [] || (!SetsIntent(s, es[0]) && NoIntent(Next(s, es[0]), es[1..]))
  }

  lemma StaysDown(s: State, e: Event)
    requires !s.core.desired && !SetsIntent(s, e)
    ensures !Next(s, e).core.desired && Next(s, e).core.next == s.core.next
    ensures Next(s, e).core.procs.Keys == s.core.procs.Keys
  {}

  /** After a Stop's locked section nothing is started, by the watchdog or otherwise, until the intent is set again. */
  lemma {:induction false} StoppedStaysDown(s: State, reload: bool, es: seq<Event>)
    requires NoIntent(Next(s, Stop(reload)), es)
    ensures var n := Run(Next(s, Stop(reload)), es);
      !n.core.desired && n.core.next == s.core.next && n.core.procs.Keys == s.core.procs.Keys
  {
    DownRun(Next(s, Stop(reload)), es);
  }

  lemma {:induction false} DownRun(s: State, es: seq<Event>)
    requires !s.core.desired && NoIntent(s, es)
    ensures var n := Run(s, es); !n.core.desired && n.core.next == s.core.next && n.core.procs.Keys == s.core.procs.Keys
    decreases es
  {
    if es != [] {
      StaysDown(s, es[0]);
      DownRun(Next(s, es[0]), es[1..]);
    }
  }

  /** One step keeps every Stop's process and kind, and what has been waited for. */
  lemma StopKept(s: State, e: Event, i: nat)
    requires i < |s.stops|
    ensures var n := Next(s, e);
      && i < |n.stops| && n.stops[i].pid == s.stops[i].pid && n.stops[i].reload == s.stops[i].reload
      && (IsReaped(s.core, s.stops[i].pid) && s.stops[i].pid < s.core.next ==> IsReaped(n.core, s.stops[i].pid))
      && s.core.next <= n.core.next
  {}

  lemma {:induction false} HoldsUntilReaped(s: State, es: seq<Event>, i: nat)
    requires i < |s.stops| && s.stops[i].pid < s.core.next
    requires Holding(s.stops[i]) || IsReaped(s.core, s.stops[i].pid)
    ensures var n := Run(s, es);
      i < |n.stops| && n.stops[i].pid == s.stops[i].pid && (Holding(n.stops[i]) || IsReaped(n.core, s.stops[i].pid))
    decreases es
  {
    if es != [] {
      StopKept(s, es[0], i);
      HoldsUntilReaped(Next(s, es[0]), es[1..], i);
    }
  }

  /** In every interleaving, a Stop of a tracked process ends only after that process has been waited for. */
  lemma StopEndsDead(before: seq<Event>, reload: bool, after: seq<Event>)
    requires Run(START, before).core.cmd.Some?
    ensures var s := Run(START, before);
      var n, i, p := Run(Next(s, Stop(reload)), after), |s.stops|, s.core.cmd.value;
      i < |n.stops| && n.stops[i].pid == p && (Holding(n.stops[i]) || IsReaped(n.core, p))
  {
    var s := Run(START, before);
    RunAccounted(START, before);
    HoldsUntilReaped(Next(s, Stop(reload)), after, |s.stops|);
  }

  /**
   A Stop that has to kill does end its process: once the kill and the exit goroutine ran, its
   next step leaves it, whatever the process ignored before.
   */
  lemma KillEndsStop(s: State, i: nat, go: bool)
    requires i < |s.stops| && s.stops[i].pc == Killing && s.stops[i].pid in s.core.procs
    ensures var p := s.stops[i].pid;
      var n := Run(s, [Move(i, true), Reap(p), Move(i, go)]);
      && i < |n.stops| && IsReaped(n.core, p) && !IsRunning(n.core, p)
      && n.stops[i].pc == (if s.stops[i].reload then Relaunching else Ended)
  {
    var p := s.stops[i].pid;
    var a := Next(s, Move(i, true));
    var b := Next(a, Reap(p));
    var c := Next(b, Move(i, go));
    assert [Move(i, true), Reap(p), Move(i, go)][1..] == [Reap(p), Move(i, go)];
    assert [Reap(p), Move(i, go)][1..] == [Move(i, go)] && [Move(i, go)][1..] == [];
    assert Run(b, [Move(i, go)]) == c && Run(a, [Reap(p), Move(i, go)]) == c;
  }

  /** A Reload is past its Stop. */
  predicate Past(t: Stopper) { t.pc in {Relaunching, Asserting} }

  /** After so many events the Reload has just ended, and the intent is set. */
  ghost predicate EndsWanted(s: State, es: seq<Event>, i: nat, n: nat) {
    && 0 < n <= |es| && i < |Run(s, es[..n - 1]).stops| && Past(Run(s, es[..n - 1]).stops[i])
    && i < |Run(s, es[..n]).stops| && Run(s, es[..n]).stops[i].pc == Ended && Run(s, es[..n]).core.desired
  }

  lemma {:induction false} OnlyStopClears(s: State, es: seq<Event>)
    requires s.core.desired
    ensures Run(s, es).core.desired || exists e :: e in es && e.Stop?
    decreases es
  {
    if es != [] && !es[0].Stop? {
      OnlyStopClears(Next(s, es[0]), es[1..]);
      if e :| e in es[1..] && e.Stop? { assert e in es; }
    } else if es != [] {
      assert es[0] in es;
    }
  }

  /**
   In every interleaving, the intent is set at the moment a Reload that got past its own Stop
   ends, whether or not a new core started; and only a Stop after that moment clears it.
   */
  lemma {:induction false} ReloadKeepsIntent(s: State, es: seq<Event>, i: nat) returns (n: nat)
    requires i < |s.stops| && Past(s.stops[i])
    requires i < |Run(s, es).stops| && Run(s, es).stops[i].pc == Ended
    ensures EndsWanted(s, es, i, n)
    ensures Run(s, es).core.desired || exists e :: e in es[n..] && e.Stop?
    decreases es
  {
    var next, rest := Next(s, es[0]), es[1..];
    if next.stops[i].pc == Ended {
      n := 1;
      assert es[..0] == [] && es[..1] == [es[0]] && [es[0]][1..] == [];
      assert Run(s, es[..1]) == next;
      OnlyStopClears(next, rest);
    } else {
      var m := ReloadKeepsIntent(next, rest, i);
      n := m + 1;
      FirstThen(s, es, m);
      FirstThen(s, es, m - 1);
      assert es[n..] == rest[m..];
    }
  }

  lemma FirstThen(s: State, es: seq<Event>, m: nat)
    requires m < |es|
    ensures Run(s, es[..m + 1]) == Run(Next(s, es[0]), es[1..][..m])
  {
    assert es[..m + 1][1..] == es[1..][..m];
  }

  /** Somewhere along the run the `i`-th Stop was there. */
  ghost predicate Visits(s: State, es: seq<Event>, i: nat, pc: Pc)
    decreases es
  {
    (i < |s.stops| && s.stops[i].pc == pc) || (es != [] && Visits(Next(s, es[0]), es[1..], i, pc))
  }

  lemma {:induction false} NeverRelaunches(s: State, es: seq<Event>, i: nat)
    requires i < |s.stops| && s.stops[i].pc in {Draining(true), Ended}
    ensures !Visits(s, es, i, Relaunching)
    decreases es
  {
    if es != [] { NeverRelaunches(Next(s, es[0]), es[1..], i); }
  }

  lemma {:induction false} NeverFails(s: State, es: seq<Event>, i: nat)
    requires i < |s.stops| && s.stops[i].pc in {Relaunching, Asserting, Ended}
    ensures !Visits(s, es, i, Draining(true))
    decreases es
  {
    if es != [] { NeverFails(Next(s, es[0]), es[1..], i); }
  }

  /**
   Over every run in which a Reload ends, it never came to start the new core exactly when
   its kill had returned an error, which the Reload then returns to its caller.
   */
  lemma {:induction false} ReloadAbandonedIff(s: State, es: seq<Event>, i: nat)
    requires i < |s.stops| && s.stops[i].reload && Holding(s.stops[i])
    requires i < |Run(s, es).stops| && Run(s, es).stops[i].pc == Ended
    ensures Visits(s, es, i, Draining(true)) <==> !Visits(s, es, i, Relaunching)
    decreases es
  {
    if s.stops[i].pc == Draining(true) {
      NeverRelaunches(s, es, i);
    } else if es != [] {
      var n := Next(s, es[0]);
      StopKept(s, es[0], i);
      if n.stops[i].pc == Relaunching {
        NeverFails(n, es[1..], i);
      } else {
        ReloadAbandonedIff(n, es[1..], i);
      }
    }
  }

  const ABANDONED :=
    [Start(true), Stop(true), Move(0, true), Move(0, false), Move(0, false), Exit(0), Reap(0), Move(0, true)]

  /** Such a Reload leaves the core down without the intent, so the watchdog never retries it. */
  lemma AbandonedReloadLosesIntent()
    ensures var s := Run(START, ABANDONED);
      s.stops == [Stopper(0, Ended, true)] && s.core == Core(false, None, map[0 := Reaped], 1)
  {}
}
