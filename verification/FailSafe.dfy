/**
 The fail-safe window of `internal/failsafe/failsafe.go`. Every method of `Manager` is one
 section under its mutex; `Window` is the value it guards, and each method is proved against
 a function on that value. Times are milliseconds and are passed in. The window timing is
 then proved against a reading of the tick history alone.
 */
module FailSafe {

  datatype Phase = Idle | Armed | Degraded | RolledBack | RollbackFailed | Committed | LiveUnsaved | Rebooting

  datatype Action = ActNone | ActRollback | ActReboot | ActDone

  datatype Durations = Durations(rollbackAfter: int, rebootAfter: int, keepWindow: int)

  const DEFAULTS := Durations(45_000, 300_000, 180_000)

  /** The guarded fields; `hasRollback` says a rollback callback is stored. */
  datatype Window = Window(
    pending: bool, phase: Phase, armedAt: int, deadline: int, bad: bool, badSince: int,
    rolledBack: bool, dispatched: bool, epoch: nat, lastOk: bool, lastAt: int, lastErr: string,
    hasRollback: bool)

  const IDLE := Window(false, Idle, 0, 0, false, 0, false, false, 0, false, 0, "", false)

  function Arming(d: Durations, w: Window, now: int, hasRollback: bool): Window {
    Window(true, Armed, now, now + d.keepWindow, false, 0, false, false, w.epoch + 1,
           w.lastOk, w.lastAt, "", hasRollback)
  }

  datatype Outcome = Outcome(window: Window, action: Action)

  function Ticking(d: Durations, w: Window, now: int, ok: bool): Outcome {
    if !w.pending then Outcome(w, ActNone)
    else
      var seen := w.(lastOk := ok, lastAt := now);
      if ok then
        var good := seen.(bad := false, badSince := 0);
        if w.rolledBack then Outcome(good.(pending := false), ActDone)
        else if now >= w.deadline then Outcome(good.(pending := false, phase := LiveUnsaved), ActDone)
        else Outcome(good.(phase := Armed), ActNone)
      else
        var since := if w.bad then w.badSince else now;
        var down := seen.(bad := true, badSince := since);
        if now - since >= d.rebootAfter then Outcome(down.(pending := false, phase := Rebooting), ActReboot)
        else if !w.rolledBack && now - since >= d.rollbackAfter then
          Outcome(down.(rolledBack := true, phase := RolledBack), ActRollback)
        else if !w.rolledBack then Outcome(down.(phase := Degraded), ActNone)
        else Outcome(down, ActNone)
  }

  predicate MayClaim(w: Window, epoch: nat) { w.epoch == epoch && !w.dispatched }

  function Claiming(w: Window, epoch: nat): Window { if MayClaim(w, epoch) then w.(dispatched := true) else w }

  function Confirming(w: Window): Window { w.(pending := false, phase := Committed) }

  function RollingBack(w: Window): Window {
    w.(dispatched := true, pending := false, phase := RolledBack, rolledBack := true)
  }

  /** The manual path invokes the stored callback. */
  predicate Fires(w: Window) { !w.dispatched && w.hasRollback }

  function Failing(w: Window, err: string): Window { w.(phase := RollbackFailed, lastErr := err) }

  class Manager {
    const d: Durations
    var pending: bool
    var phase: Phase
    var armedAt: int
    var deadline: int
    var bad: bool
    var badSince: int
    var rolledBack: bool
    var dispatched: bool
    var epoch: nat
    var lastOk: bool
    var lastAt: int
    var lastErr: string
    var hasRollback: bool

    function Snapshot(): Window
      reads this
    {
      Window(pending, phase, armedAt, deadline, bad, badSince, rolledBack, dispatched, epoch,
             lastOk, lastAt, lastErr, hasRollback)
    }

    constructor (d: Durations)
      ensures this.d == d && Snapshot() == IDLE
    {
      this.d := d;
      pending, phase, armedAt, deadline, bad, badSince := false, Idle, 0, 0, false, 0;
      rolledBack, dispatched, epoch, lastOk, lastAt, lastErr, hasRollback := false, false, 0, false, 0, "", false;
    }

    method Arm(now: int, withRollback: bool) returns (myEpoch: nat)
      modifies this
      ensures myEpoch == epoch && epoch == old(epoch) + 1
      ensures pending && phase == Armed && armedAt == now && deadline == now + d.keepWindow
      ensures !rolledBack && !dispatched && !bad && badSince == 0 && lastErr == "" && hasRollback == withRollback
      ensures lastOk == old(lastOk) && lastAt == old(lastAt)
      ensures Snapshot() == Arming(d, old(Snapshot()), now, withRollback)
    {
      epoch := epoch + 1;
      myEpoch := epoch;
      pending, phase := true, Armed;
      rolledBack, dispatched := false, false;
      bad, badSince, lastErr := false, 0, "";
      armedAt, deadline := now, now + d.keepWindow;
      hasRollback := withRollback;
    }

    method IsCurrent(e: nat) returns (current: bool)
      ensures current <==> Snapshot().epoch == e
    {
      return epoch == e;
    }

    method ClaimRollback(myEpoch: nat) returns (won: bool)
      modifies this
      ensures won <==> MayClaim(old(Snapshot()), myEpoch)
      ensures won <==> epoch == myEpoch && !old(dispatched)
      ensures Snapshot() == Claiming(old(Snapshot()), myEpoch)
      ensures dispatched == (old(dispatched) || epoch == myEpoch)
      ensures pending == old(pending) && epoch == old(epoch) && rolledBack == old(rolledBack) && phase == old(phase)
    {
      if epoch != myEpoch || dispatched {
        return false;
      }
      dispatched := true;
      return true;
    }

    method ClaimReboot(myEpoch: nat) returns (won: bool)
      ensures won <==> Snapshot().epoch == myEpoch
    {
      return epoch == myEpoch;
    }

    method MarkRollbackFailed(err: string)
      modifies this
      ensures Snapshot() == Failing(old(Snapshot()), err)
      ensures phase == RollbackFailed && lastErr == err
      ensures pending == old(pending) && epoch == old(epoch) && dispatched == old(dispatched)
    {
      phase := RollbackFailed;
      lastErr := err;
    }

    method Tick(now: int, ok: bool) returns (a: Action)
      modifies this
      ensures Outcome(Snapshot(), a) == Ticking(d, old(Snapshot()), now, ok)
      ensures if old(pending) then lastOk == ok && lastAt == now else a == ActNone && Snapshot() == old(Snapshot())
    {
      if !pending {
        return ActNone;
      }
      lastOk, lastAt := ok, now;
      if ok {
        bad := false;
        badSince := 0;
        if rolledBack {
          pending := false;
          return ActDone;
        }
        if now >= deadline {
          pending := false;
          phase := LiveUnsaved;
          return ActDone;
        }
        phase := Armed;
        return ActNone;
      }
      if !bad {
        bad := true;
        badSince := now;
      }
      var badFor := now - badSince;
      if badFor >= d.rebootAfter {
        pending := false;
        phase := Rebooting;
        return ActReboot;
      }
      if !rolledBack && badFor >= d.rollbackAfter {
        rolledBack := true;
        phase := RolledBack;
        return ActRollback;
      }
      if !rolledBack { phase := Degraded; }
      return ActNone;
    }

    method Confirm()
      modifies this
      ensures Snapshot() == Confirming(old(Snapshot()))
      ensures !pending && phase == Committed && epoch == old(epoch) && dispatched == old(dispatched)
      ensures rolledBack == old(rolledBack) && hasRollback == old(hasRollback)
    {
      pending := false;
      phase := Committed;
    }

    /** The locked section of `RollbackNow`; `fire` says the callback is invoked after it. */
    method RollbackNow() returns (fire: bool)
      modifies this
      ensures fire <==> Fires(old(Snapshot()))
      ensures Snapshot() == RollingBack(old(Snapshot()))
      ensures fire <==> !old(dispatched) && hasRollback
      ensures !pending && dispatched && rolledBack && phase == RolledBack && epoch == old(epoch)
      ensures hasRollback == old(hasRollback)
    {
      var already := dispatched;
      if !already { dispatched := true; }
      pending := false;
      phase := RolledBack;
      rolledBack := true;
      return !already && hasRollback;
    }
  }

  // ---- one window under its own ticks ----

  datatype Tick = Tick(now: int, ok: bool)

  /** The window after the first `n` ticks. */
  function StateAt(d: Durations, w: Window, ts: seq<Tick>, n: nat): Window
    requires n <= |ts|
  {
    if n == 0 then w else Ticking(d, StateAt(d, w, ts, n - 1), ts[n - 1].now, ts[n - 1].ok).window
  }

  function ActionAt(d: Durations, w: Window, ts: seq<Tick>, i: nat): Action
    requires i < |ts|
  {
    Ticking(d, StateAt(d, w, ts, i), ts[i].now, ts[i].ok).action
  }

  /** One of the first `n` ticks decided `a`. */
  predicate Decided(d: Durations, w: Window, ts: seq<Tick>, n: nat, a: Action)
    requires n <= |ts|
  {
    n > 0 && (ActionAt(d, w, ts, n - 1) == a || Decided(d, w, ts, n - 1, a))
  }

  /** The first tick of the unbroken failing stretch that ends at tick `i`. */
  function StreakStart(ts: seq<Tick>, i: nat): (j: nat)
    requires i < |ts| && !ts[i].ok
    ensures j <= i && (forall k :: j <= k <= i ==> !ts[k].ok) && (j == 0 || ts[j - 1].ok)
  {
    if i == 0 || ts[i - 1].ok then i else StreakStart(ts, i - 1)
  }

  /** How long connectivity has been failing at tick `i`; negative when it is not. */
  function BadFor(ts: seq<Tick>, i: nat): int
    requires i < |ts|
  {
    if ts[i].ok then -1 else ts[i].now - ts[StreakStart(ts, i)].now
  }

  lemma {:induction false} DecidedBy(d: Durations, w: Window, ts: seq<Tick>, j: nat, n: nat, a: Action)
    requires j < n <= |ts| && ActionAt(d, w, ts, j) == a
    ensures Decided(d, w, ts, n, a)
  {
    if j < n - 1 { DecidedBy(d, w, ts, j, n - 1, a); }
  }

  /** What the fields of a window say about the ticks it has seen. */
  ghost predicate History(d: Durations, w: Window, ts: seq<Tick>, n: nat)
    requires n <= |ts|
  {
    var s := StateAt(d, w, ts, n);
    && s.deadline == w.deadline && s.epoch == w.epoch
    && (s.pending <==> !Decided(d, w, ts, n, ActReboot) && !Decided(d, w, ts, n, ActDone))
    && (s.rolledBack <==> Decided(d, w, ts, n, ActRollback))
    && (s.pending ==> (s.bad <==> n > 0 && !ts[n - 1].ok))
    && (s.pending && s.bad ==> s.badSince == ts[StreakStart(ts, n - 1)].now)
  }

  predicate JustArmed(w: Window) { w.pending && !w.bad && !w.rolledBack }

  lemma TickEffect(d: Durations, w: Window, now: int, ok: bool)
    ensures var o := Ticking(d, w, now, ok);
      && o.window.deadline == w.deadline && o.window.epoch == w.epoch
      && (o.window.pending <==> w.pending && o.action != ActReboot && o.action != ActDone)
      && (o.window.rolledBack <==> w.rolledBack || o.action == ActRollback)
      && (w.pending ==> o.window.bad == !ok && (!ok ==> o.window.badSince == if w.bad then w.badSince else now))
  {}

  lemma {:induction false} HistoryHolds(d: Durations, w: Window, ts: seq<Tick>, n: nat)
    requires n <= |ts| && JustArmed(w)
    ensures History(d, w, ts, n)
  {
    if n > 0 {
      HistoryHolds(d, w, ts, n - 1);
      HistoryFlags(d, w, ts, n);
      HistoryStep(d, w, ts, n);
    }
  }

  lemma HistoryFlags(d: Durations, w: Window, ts: seq<Tick>, n: nat)
    requires 0 < n <= |ts| && History(d, w, ts, n - 1)
    ensures var s := StateAt(d, w, ts, n);
      && s.deadline == w.deadline && s.epoch == w.epoch
      && (s.pending <==> !Decided(d, w, ts, n, ActReboot) && !Decided(d, w, ts, n, ActDone))
      && (s.rolledBack <==> Decided(d, w, ts, n, ActRollback))
  {
    TickEffect(d, StateAt(d, w, ts, n - 1), ts[n - 1].now, ts[n - 1].ok);
  }

  lemma HistoryStep(d: Durations, w: Window, ts: seq<Tick>, n: nat)
    requires 0 < n <= |ts| && JustArmed(w) && History(d, w, ts, n - 1)
    ensures var s := StateAt(d, w, ts, n);
      s.pending ==> s.bad == !ts[n - 1].ok && (s.bad ==> s.badSince == ts[StreakStart(ts, n - 1)].now)
  {
    var t := ts[n - 1];
    TickEffect(d, StateAt(d, w, ts, n - 1), t.now, t.ok);
  }

  /** A window is open at tick `i` while it has neither rebooted nor ended. */
  predicate Open(d: Durations, w: Window, ts: seq<Tick>, i: nat)
    requires i <= |ts|
  {
    !Decided(d, w, ts, i, ActReboot) && !Decided(d, w, ts, i, ActDone)
  }

  /** What every tick decides, from the tick history alone. */
  lemma TickDecides(d: Durations, w: Window, ts: seq<Tick>, i: nat)
    requires i < |ts| && JustArmed(w)
    ensures ActionAt(d, w, ts, i) == ActReboot <==> Open(d, w, ts, i) && !ts[i].ok && BadFor(ts, i) >= d.rebootAfter
    ensures ActionAt(d, w, ts, i) == ActRollback <==>
      && Open(d, w, ts, i) && !ts[i].ok && d.rollbackAfter <= BadFor(ts, i) < d.rebootAfter
      && !Decided(d, w, ts, i, ActRollback)
    ensures ActionAt(d, w, ts, i) == ActDone <==>
      Open(d, w, ts, i) && ts[i].ok && (Decided(d, w, ts, i, ActRollback) || ts[i].now >= w.deadline)
  {
    HistoryHolds(d, w, ts, i);
  }

  /** The phase a caller is shown, from the decisions so far and the last probe. */
  lemma {:induction false} PhaseTells(d: Durations, w: Window, ts: seq<Tick>, n: nat)
    requires n <= |ts| && JustArmed(w) && w.phase == Armed
    ensures StateAt(d, w, ts, n).phase ==
      if Decided(d, w, ts, n, ActReboot) then Rebooting
      else if Decided(d, w, ts, n, ActRollback) then RolledBack
      else if Decided(d, w, ts, n, ActDone) then LiveUnsaved
      else if n > 0 && !ts[n - 1].ok then Degraded
      else Armed
  {
    if n > 0 {
      PhaseTells(d, w, ts, n - 1);
      HistoryHolds(d, w, ts, n - 1);
    }
  }

  /** A window decides to roll back at most once. */
  lemma RollbackDecidedOnce(d: Durations, w: Window, ts: seq<Tick>, i: nat, j: nat)
    requires i < |ts| && j < |ts| && JustArmed(w)
    requires ActionAt(d, w, ts, i) == ActRollback == ActionAt(d, w, ts, j)
    ensures i == j
  {
    TickDecides(d, w, ts, i);
    TickDecides(d, w, ts, j);
    if i < j { DecidedBy(d, w, ts, i, j, ActRollback); }
    if j < i { DecidedBy(d, w, ts, j, i, ActRollback); }
  }

  /** A stretch that has lasted was already under way one tick earlier. */
  lemma BadForBefore(ts: seq<Tick>, i: nat)
    requires i < |ts| && BadFor(ts, i) > 0
    ensures i > 0 && !ts[i - 1].ok && BadFor(ts, i - 1) == BadFor(ts, i) - (ts[i].now - ts[i - 1].now)
  {
    StreakShared(ts, i);
  }

  lemma {:induction false} StreakShared(ts: seq<Tick>, i: nat)
    requires 0 < i < |ts| && !ts[i].ok && StreakStart(ts, i) < i
    ensures !ts[i - 1].ok && StreakStart(ts, i - 1) == StreakStart(ts, i)
  {}

  /** With ticks close enough together the reboot is the last resort: a rollback came first. */
  lemma RebootAfterRollback(d: Durations, w: Window, ts: seq<Tick>, i: nat)
    requires i < |ts| && JustArmed(w) && d.rebootAfter > 0
    requires forall k :: 0 < k < |ts| ==> ts[k].now - ts[k - 1].now <= d.rebootAfter - d.rollbackAfter
    requires ActionAt(d, w, ts, i) == ActReboot
    ensures Decided(d, w, ts, i, ActRollback)
  {
    TickDecides(d, w, ts, i);
    BadForBefore(ts, i);
    OneBefore(d, w, ts, i - 1);
  }

  lemma OneBefore(d: Durations, w: Window, ts: seq<Tick>, i: nat)
    requires i + 1 <= |ts| && JustArmed(w) && Open(d, w, ts, i + 1) && !ts[i].ok && BadFor(ts, i) >= d.rollbackAfter
    ensures Decided(d, w, ts, i + 1, ActRollback)
  {
    TickDecides(d, w, ts, i);
  }

  /** The spacing bound is sharp: at the shipped durations one more millisecond loses the rollback. */
  lemma WiderGapSkipsRollback()
    ensures var ts := [Tick(0, false), Tick(44_999, false), Tick(300_000, false)];
      var w := Arming(DEFAULTS, IDLE, 0, true);
      && (forall k :: 0 < k < |ts| ==> ts[k].now - ts[k - 1].now <= DEFAULTS.rebootAfter - DEFAULTS.rollbackAfter + 1)
      && JustArmed(w) && ActionAt(DEFAULTS, w, ts, 2) == ActReboot && !Decided(DEFAULTS, w, ts, 2, ActRollback)
  {
    var ts := [Tick(0, false), Tick(44_999, false), Tick(300_000, false)];
    var w := Arming(DEFAULTS, IDLE, 0, true);
    var s1 := StateAt(DEFAULTS, w, ts, 1);
    assert s1 == Ticking(DEFAULTS, StateAt(DEFAULTS, w, ts, 0), 0, false).window;
    var s2 := StateAt(DEFAULTS, w, ts, 2);
    assert ActionAt(DEFAULTS, w, ts, 0) == ActNone && ActionAt(DEFAULTS, w, ts, 1) == ActNone;
  }

  /** A window whose probes all succeed ends at the first tick the keep window has passed, three minutes as shipped. */
  lemma HealthyEnds(start: int, ts: seq<Tick>, i: nat)
    requires i < |ts| && forall k :: 0 <= k <= i ==> ts[k].ok
    ensures ActionAt(DEFAULTS, Arming(DEFAULTS, IDLE, start, true), ts, i) == ActDone <==>
      ts[i].now >= start + 180_000 && forall k :: 0 <= k < i ==> ts[k].now < start + 180_000
  {
    var w := Arming(DEFAULTS, IDLE, start, true);
    HealthyOpen(DEFAULTS, w, ts, i);
    TickDecides(DEFAULTS, w, ts, i);
  }

  lemma {:induction false} HealthyOpen(d: Durations, w: Window, ts: seq<Tick>, i: nat)
    requires i <= |ts| && JustArmed(w) && forall k :: 0 <= k < i ==> ts[k].ok
    ensures !Decided(d, w, ts, i, ActReboot) && !Decided(d, w, ts, i, ActRollback)
    ensures Decided(d, w, ts, i, ActDone) <==> exists k :: 0 <= k < i && ts[k].now >= w.deadline
  {
    if i > 0 {
      HealthyOpen(d, w, ts, i - 1);
      TickDecides(d, w, ts, i - 1);
    }
  }

  /** A rollback is decided in every window whose failing stretch is long enough but short of a reboot. */
  lemma LongFailureRollsBack(d: Durations, w: Window, ts: seq<Tick>, i: nat)
    requires i < |ts| && JustArmed(w) && Open(d, w, ts, i) && !ts[i].ok
    requires d.rollbackAfter <= BadFor(ts, i) < d.rebootAfter
    ensures Decided(d, w, ts, i + 1, ActRollback)
  {
    TickDecides(d, w, ts, i);
  }
}
