/**
 Applies, run loops, rollback closures, manual rollbacks and confirmations, interleaved
 (`internal/server/failsafe.go`, `handleApply` of `internal/server/profile.go`, and the `run`
 loop of `internal/failsafe/failsafe.go`). Each event is one section under the manager's
 mutex, or one step of a holder of `applyMu`; any number of threads take them in any order.
 A blocked or unknown thread leaves the state as it is, so every sequence of events is a run.
 */
module ApplyProtocol {
  import opened FailSafe
  import opened Sorting

  /** The live configuration: the one found at start, or the one Apply number `id` wrote. */
  datatype Config = Initial | Applied(id: nat, saved: bool)

  /** Where a `handleApply` is. */
  datatype ApplyPc = Waiting | Locked | Seen(pending: bool) | Ready | Written | Windowed(window: nat) | Leaving

  /** Where a `run` loop is: before the context check, the pending read, the tick, the claim. */
  datatype LoopPc = Top | Reading | Sampling | AtClaim

  /** Where a rollback closure is; `Reporting` is after it returned. */
  datatype ClosurePc = Want | Entered | Restoring | Reporting(failed: bool)

  datatype Thread =
    | Apply(id: nat, save: bool, apc: ApplyPc)
    | Loop(window: nat, lpc: LoopPc)
    | Closure(window: nat, cpc: ClosurePc, byLoop: bool)
    | Finished

  datatype Mutex = Free | Held(owner: nat)

  /** One restore done by a closure: its window, the epoch at that moment, and the two configurations. */
  datatype Write = Write(window: nat, epoch: nat, over: Config, restored: Config)

  /**
   The shared state. `stored` is each closure's captured epoch once written back, `cancelled`
   the windows whose context is done; `armedBy`, `started` and `writes` record history only.
   */
  datatype State = State(
    m: Window, mu: Mutex, live: Config, base: Config, count: nat, stored: map<nat, nat>, cancelled: set<nat>,
    threads: seq<Thread>, armedBy: map<nat, nat>, started: seq<nat>, writes: seq<Write>)

  const START := State(IDLE, Free, Initial, Initial, 0, map[], {}, [], map[], [], [])

  /**
   A new Apply request, a manual rollback, a confirmation, or a move of one thread. `go` picks
   the successful outcome where the code can fail; `now` and `ok` are the clock and the probe.
   */
  datatype Event = NewApply(save: bool) | Manual | Confirm | Move(i: nat, go: bool, now: int, ok: bool)

  function Put(s: State, i: nat, t: Thread): State
    requires i < |s.threads|
  {
    s.(threads := s.threads[i := t])
  }

  /** The captured epoch a closure loads; an atomic starts at zero. */
  function Loaded(s: State, window: nat): nat { if window in s.stored then s.stored[window] else 0 }

  /** `armFailSafe`: the old window is cancelled, and the new one's loop starts before its epoch is stored. */
  function ArmMove(d: Durations, s: State, i: nat, now: int): State
    requires i < |s.threads| && s.threads[i].Apply?
  {
    var t, m := s.threads[i], Arming(d, s.m, now, true);
    s.(m := m, cancelled := s.cancelled + {s.m.epoch}, armedBy := s.armedBy[m.epoch := t.id],
       threads := s.threads[i := t.(apc := Windowed(m.epoch))] + [Loop(m.epoch, Top)])
  }

  function ApplyMove(d: Durations, s: State, i: nat, go: bool, now: int): State
    requires i < |s.threads| && s.threads[i].Apply?
  {
    var t := s.threads[i];
    match t.apc
    case Waiting =>
      if s.mu != Free then s
      else Put(s, i, t.(apc := Locked, id := s.count)).(mu := Held(i), count := s.count + 1)
    case Locked =>
      if go then Put(s, i, t.(apc := Seen(s.m.pending))) else Put(s, i, Finished).(mu := Free)
    case Seen(pending) =>
      Put(s, i, t.(apc := Ready)).(base := if pending || !go then s.base else s.live)
    case Ready =>
      if go then Put(s, i, t.(apc := Written)).(live := Applied(t.id, t.save)) else Put(s, i, Finished).(mu := Free)
    case Written =>
      if t.save then Put(s, i, t.(apc := Leaving)).(m := Confirming(s.m), cancelled := s.cancelled + {s.m.epoch})
      else if !go then Put(s, i, Finished).(live := s.base, mu := Free)
      else ArmMove(d, s, i, now)
    case Windowed(window) => Put(s, i, t.(apc := Leaving)).(stored := s.stored[window := window])
    case Leaving => Put(s, i, Finished).(mu := Free)
  }

  function LoopMove(d: Durations, s: State, i: nat, now: int, ok: bool): State
    requires i < |s.threads| && s.threads[i].Loop?
  {
    var t := s.threads[i];
    match t.lpc
    case Top => Put(s, i, if t.window in s.cancelled then Finished else t.(lpc := Reading))
    case Reading => Put(s, i, if s.m.pending then t.(lpc := Sampling) else Finished)
    case Sampling =>
      var o := Ticking(d, s.m, now, ok);
      var next :=
        match o.action
        case ActNone => t.(lpc := Top)
        case ActRollback => t.(lpc := AtClaim)
        case ActReboot => Finished
        case ActDone => Finished;
      Put(s, i, next).(m := o.window)
    case AtClaim =>
      if MayClaim(s.m, t.window) then
        Put(s, i, Closure(t.window, Want, true)).(m := Claiming(s.m, t.window), started := s.started + [t.window])
      else Put(s, i, t.(lpc := Top))
  }

  function ClosureMove(s: State, i: nat, go: bool): State
    requires i < |s.threads| && s.threads[i].Closure?
  {
    var t := s.threads[i];
    match t.cpc
    case Want => if s.mu != Free then s else Put(s, i, t.(cpc := Entered)).(mu := Held(i))
    case Entered =>
      if s.m.epoch == Loaded(s, t.window) then Put(s, i, t.(cpc := Restoring))
      else Put(s, i, t.(cpc := Reporting(false))).(mu := Free)
    case Restoring =>
      if go then
        Put(s, i, t.(cpc := Reporting(false))).(
          mu := Free, live := s.base, writes := s.writes + [Write(t.window, s.m.epoch, s.live, s.base)])
      else Put(s, i, t.(cpc := Reporting(true))).(mu := Free)
    case Reporting(failed) =>
      Put(s, i, if t.byLoop then Loop(t.window, Top) else Finished).(m := if failed then Failing(s.m, "") else s.m)
  }

  function Next(d: Durations, s: State, e: Event): State {
    match e
    case NewApply(save) => s.(threads := s.threads + [Apply(0, save, Waiting)])
    case Manual =>
      var fired := s.(m := RollingBack(s.m), cancelled := s.cancelled + {s.m.epoch});
      if Fires(s.m) then
        fired.(threads := s.threads + [Closure(s.m.epoch, Want, false)], started := s.started + [s.m.epoch])
      else fired
    case Confirm => s.(m := Confirming(s.m), cancelled := s.cancelled + {s.m.epoch})
    case Move(i, go, now, ok) =>
      if i >= |s.threads| then s
      else
        match s.threads[i]
        case Apply(_, _, _) => ApplyMove(d, s, i, go, now)
        case Loop(_, _) => LoopMove(d, s, i, now, ok)
        case Closure(_, _, _) => ClosureMove(s, i, go)
        case Finished => s
  }

  function Run(d: Durations, s: State, es: seq<Event>): State
    decreases es
  {
    if es == [] then s else Run(d, Next(d, s, es[0]), es[1..])
  }

  // ---- the invariant ----

  predicate Holds(t: Thread) {
    || (t.Apply? && t.apc != Waiting)
    || (t.Closure? && (t.cpc == Entered || t.cpc == Restoring))
  }

  /** `applyMu` is held by exactly the thread that is inside. */
  ghost predicate LockOk(s: State) {
    && (s.mu.Held? ==> s.mu.owner < |s.threads| && Holds(s.threads[s.mu.owner]))
    && (forall i :: 0 <= i < |s.threads| && Holds(s.threads[i]) ==> s.mu == Held(i))
  }

  predicate WindowOk(s: State, t: Thread) {
    && (t.Loop? ==> 0 < t.window <= s.m.epoch)
    && (t.Closure? ==> 0 < t.window <= s.m.epoch && t.window in s.started)
  }

  ghost predicate WindowsOk(s: State) {
    && (forall i :: 0 <= i < |s.threads| ==> WindowOk(s, s.threads[i]))
    && (s.m.epoch == 0 ==> !s.m.hasRollback)
  }

  /** A window's closure is started once, and only after its dispatch is claimed. */
  ghost predicate StartedOk(s: State) {
    && Distinct(s.started)
    && (forall w :: w in s.started ==> 0 < w <= s.m.epoch)
    && (s.m.epoch in s.started ==> s.m.dispatched)
  }

  /** The Apply inside `applyMu` that has armed but not yet stored its epoch. */
  predicate Storing(s: State, window: nat) {
    && s.mu.Held? && s.mu.owner < |s.threads| && s.threads[s.mu.owner].Apply?
    && s.threads[s.mu.owner].apc == Windowed(window)
  }

  ghost predicate StoredOk(s: State) {
    && (forall w :: w in s.stored ==> s.stored[w] == w)
    && (forall w :: 0 < w <= s.m.epoch ==> w in s.stored || Storing(s, w))
    && (forall i :: 0 <= i < |s.threads| && s.threads[i].Apply? && s.threads[i].apc.Windowed?
          ==> s.threads[i].apc.window == s.m.epoch)
  }

  predicate BeforeArm(t: Thread) { t.Apply? && t.apc != Waiting && !t.apc.Windowed? && t.apc != Leaving }

  /** Identifiers grow, and the Apply inside `applyMu` has the newest one. */
  ghost predicate IdsOk(s: State) {
    && (forall w :: w in s.armedBy ==> s.armedBy[w] < s.count)
    && (forall w :: 0 < w <= s.m.epoch ==> w in s.armedBy)
    && (forall i :: 0 <= i < |s.threads| && BeforeArm(s.threads[i]) ==>
      s.threads[i].id + 1 == s.count && forall w :: w in s.armedBy ==> s.armedBy[w] < s.threads[i].id)
  }

  /** A restoring closure's window is the current one; a pending window was seen pending. */
  ghost predicate CurrentOk(s: State) {
    && (forall i :: 0 <= i < |s.threads| && s.threads[i].Closure? && s.threads[i].cpc == Restoring ==>
      s.threads[i].window == s.m.epoch)
    && (forall i :: 0 <= i < |s.threads| && s.threads[i].Apply? && s.threads[i].apc == Seen(false) ==> !s.m.pending)
  }

  /** The configuration of Apply `id` is the one its window guards, or a saved one after it. */
  predicate Guarded(s: State, c: Config, window: nat) {
    && c.Applied?
    && (window == 0 ==> c.saved)
    && (window > 0 ==> window in s.armedBy && (c.id == s.armedBy[window] || (c.saved && c.id > s.armedBy[window])))
  }

  predicate Writing(s: State, t: Thread) { t.Apply? && t.apc == Written && s.live == Applied(t.id, t.save) }

  ghost predicate LiveOk(s: State) {
    && (forall i :: 0 <= i < |s.threads| && s.threads[i].Apply? && s.threads[i].apc == Written
          ==> Writing(s, s.threads[i]))
    && LiveGuarded(s)
  }

  ghost predicate LiveGuarded(s: State) {
    || s.live == s.base
    || Guarded(s, s.live, s.m.epoch)
    || exists i :: 0 <= i < |s.threads| && Writing(s, s.threads[i])
  }

  /** Every restore so far was done while its window was current, over its own or a later saved configuration. */
  predicate WriteOk(s: State, w: Write) {
    && w.epoch == w.window && 0 < w.window <= s.m.epoch && w.window in s.started
    && (w.over == w.restored || Guarded(s, w.over, w.window))
  }

  ghost predicate WritesOk(s: State) { forall w :: w in s.writes ==> WriteOk(s, w) }

  ghost predicate Inv(s: State) {
    LockOk(s) && WindowsOk(s) && StartedOk(s) && StoredOk(s) && IdsOk(s) && CurrentOk(s) && LiveOk(s) && WritesOk(s)
  }

  /** A move of a thread outside `applyMu` that touches none of what the lock protects. */
  ghost predicate Outside(s: State, n: State, i: nat, t: Thread) {
    && i < |s.threads| && !s.threads[i].Apply? && !t.Apply? && !Holds(s.threads[i]) && !Holds(t)
    && n == s.(threads := s.threads[i := t], m := n.m, started := n.started)
    && n.m.epoch == s.m.epoch
  }

  lemma OutsideKeeps(s: State, n: State, i: nat, t: Thread)
    requires Inv(s) && Outside(s, n, i, t)
    ensures LockOk(n) && StoredOk(n) && IdsOk(n) && LiveOk(n)
  {
    assert LockOk(n);
    OutsideStored(s, n, i, t);
    if s.live != s.base && !Guarded(s, s.live, s.m.epoch) {
      var k :| 0 <= k < |s.threads| && Writing(s, s.threads[k]);
      assert Writing(n, n.threads[k]);
    }
  }

  lemma OutsideStored(s: State, n: State, i: nat, t: Thread)
    requires Inv(s) && Outside(s, n, i, t)
    ensures StoredOk(n)
  {
    forall w | 0 < w <= n.m.epoch ensures w in n.stored || Storing(n, w) {
      assert w in s.stored || Storing(s, w);
    }
  }

  lemma LoopKeeps(d: Durations, s: State, i: nat, now: int, ok: bool)
    requires Inv(s) && i < |s.threads| && s.threads[i].Loop?
    ensures Inv(LoopMove(d, s, i, now, ok))
  {
    var n := LoopMove(d, s, i, now, ok);
    TickEffect(d, s.m, now, ok);
    LoopFields(d, s, i, now, ok);
    OutsideKeeps(s, n, i, n.threads[i]);
    LoopStarts(d, s, i, now, ok);
    assert WindowsOk(n);
    assert CurrentOk(n);
    assert WritesOk(n);
  }

  /** What any move of a run loop may change. */
  ghost predicate LoopMoved(s: State, n: State, i: nat)
    requires i < |s.threads| && s.threads[i].Loop?
  {
    && |n.threads| == |s.threads| && Outside(s, n, i, n.threads[i]) && (n.m.pending ==> s.m.pending)
    && n.m.hasRollback == s.m.hasRollback && (s.m.dispatched ==> n.m.dispatched)
    && (n.threads[i].Loop? ==> n.threads[i].window == s.threads[i].window)
    && (n.threads[i].Closure? ==> n.threads[i] == Closure(s.threads[i].window, Want, true))
    && if n.threads[i].Closure? then MayClaim(s.m, s.threads[i].window) && n.m.dispatched
        && n.started == s.started + [s.threads[i].window]
       else n.started == s.started
  }

  lemma TickKeeps(d: Durations, w: Window, now: int, ok: bool)
    ensures var n := Ticking(d, w, now, ok).window;
      n.epoch == w.epoch && n.hasRollback == w.hasRollback && n.dispatched == w.dispatched && (n.pending ==> w.pending)
  {}

  lemma LoopFields(d: Durations, s: State, i: nat, now: int, ok: bool)
    requires i < |s.threads| && s.threads[i].Loop?
    ensures LoopMoved(s, LoopMove(d, s, i, now, ok), i)
  {
    var t := s.threads[i];
    if t.lpc == Sampling {
      TickKeeps(d, s.m, now, ok);
      var o := Ticking(d, s.m, now, ok);
      var n := LoopMove(d, s, i, now, ok);
      SampleMoved(s, i, o, n, n.threads[i]);
    }
  }

  lemma SampleMoved(s: State, i: nat, o: Outcome, n: State, t: Thread)
    requires i < |s.threads| && s.threads[i].Loop?
    requires o.window.epoch == s.m.epoch && o.window.hasRollback == s.m.hasRollback
        && o.window.dispatched == s.m.dispatched
    requires o.window.pending ==> s.m.pending
    requires n == s.(threads := s.threads[i := t], m := o.window)
        && (t == Finished || (t.Loop? && t.window == s.threads[i].window))
    ensures LoopMoved(s, n, i)
  {}

  lemma LoopStarts(d: Durations, s: State, i: nat, now: int, ok: bool)
    requires Inv(s) && i < |s.threads| && s.threads[i].Loop?
    ensures var n := LoopMove(d, s, i, now, ok);
      StartedOk(n) && (forall w :: w in s.started ==> w in n.started)
          && (n.threads[i].Closure? ==> s.threads[i].window in n.started)
  {
    LoopFields(d, s, i, now, ok);
    assert WindowOk(s, s.threads[i]);
    StartedGrows(s, LoopMove(d, s, i, now, ok), s.threads[i].window);
  }

  lemma StartedGrows(s: State, n: State, w: nat)
    requires StartedOk(s) && 0 < w && n.m.epoch == s.m.epoch && (s.m.dispatched ==> n.m.dispatched)
    requires n.started == s.started || (MayClaim(s.m, w) && n.m.dispatched && n.started == s.started + [w])
    ensures StartedOk(n)
  {}

  // ---- closures ----

  lemma ClosureKeeps(s: State, i: nat, go: bool)
    requires Inv(s) && i < |s.threads| && s.threads[i].Closure?
    ensures Inv(ClosureMove(s, i, go))
  {
    var n := ClosureMove(s, i, go);
    ClosureLock(s, i, go);
    ClosureStored(s, i, go);
    ClosureLive(s, i, go);
    ClosureCurrent(s, i, go);
    ClosureRest(s, i, go);
  }

  lemma ClosureLock(s: State, i: nat, go: bool)
    requires Inv(s) && i < |s.threads| && s.threads[i].Closure?
    ensures LockOk(ClosureMove(s, i, go))
  {}

  lemma ClosureStored(s: State, i: nat, go: bool)
    requires Inv(s) && i < |s.threads| && s.threads[i].Closure?
    ensures StoredOk(ClosureMove(s, i, go)) && IdsOk(ClosureMove(s, i, go))
  {
    var n := ClosureMove(s, i, go);
    ClosureFields(s, i, go);
    forall w | 0 < w <= n.m.epoch ensures w in n.stored || Storing(n, w) {
      assert w in s.stored || Storing(s, w);
    }
  }

  lemma ClosureLive(s: State, i: nat, go: bool)
    requires Inv(s) && i < |s.threads| && s.threads[i].Closure?
    ensures LiveOk(ClosureMove(s, i, go))
  {
    var n := ClosureMove(s, i, go);
    if n.live == s.live && s.live != s.base && !Guarded(s, s.live, s.m.epoch) {
      var k :| 0 <= k < |s.threads| && Writing(s, s.threads[k]);
      assert Writing(n, n.threads[k]);
    }
  }

  /** Past the lock, the arming Apply has stored the closure's epoch, so the check is exact. */
  lemma LoadedIsOwn(s: State, i: nat)
    requires Inv(s) && i < |s.threads| && s.threads[i].Closure? && s.threads[i].cpc == Entered
    ensures Loaded(s, s.threads[i].window) == s.threads[i].window
  {
    assert s.mu == Held(i);
    assert WindowOk(s, s.threads[i]);
    assert !Storing(s, s.threads[i].window);
  }

  lemma ClosureCurrent(s: State, i: nat, go: bool)
    requires Inv(s) && i < |s.threads| && s.threads[i].Closure?
    ensures CurrentOk(ClosureMove(s, i, go))
  {
    if s.threads[i].cpc == Entered { LoadedIsOwn(s, i); }
  }

  lemma OneInside(s: State, i: nat)
    requires LockOk(s) && i < |s.threads| && Holds(s.threads[i])
    ensures forall k :: 0 <= k < |s.threads| && k != i ==> !Holds(s.threads[k])
  {}

  /** What a restoring closure overwrites. */
  lemma OverwrittenConfig(s: State, i: nat)
    requires Inv(s) && i < |s.threads| && s.threads[i].Closure? && s.threads[i].cpc == Restoring
    ensures s.m.epoch == s.threads[i].window && (s.live == s.base || Guarded(s, s.live, s.m.epoch))
  {
    OneInside(s, i);
  }

  lemma ClosureRest(s: State, i: nat, go: bool)
    requires Inv(s) && i < |s.threads| && s.threads[i].Closure?
    ensures var n := ClosureMove(s, i, go); WindowsOk(n) && StartedOk(n) && WritesOk(n)
  {
    var n := ClosureMove(s, i, go);
    assert WindowOk(s, s.threads[i]);
    if s.threads[i].cpc == Restoring { OverwrittenConfig(s, i); }
    assert n.started == s.started && n.m.epoch == s.m.epoch && n.armedBy == s.armedBy;
    forall w | w in n.writes ensures WriteOk(n, w) {
      if w in s.writes { assert WriteOk(s, w); }
    }
  }

  // ---- Applies ----

  lemma ApplyKeeps(d: Durations, s: State, i: nat, go: bool, now: int)
    requires Inv(s) && i < |s.threads| && s.threads[i].Apply?
    ensures Inv(ApplyMove(d, s, i, go, now))
  {
    ApplyLock(d, s, i, go, now);
    ApplyStored(d, s, i, go, now);
    ApplyIds(d, s, i, go, now);
    ApplyLive(d, s, i, go, now);
    ApplyCurrent(d, s, i, go, now);
    ApplyRest(d, s, i, go, now);
  }

  lemma ApplyLock(d: Durations, s: State, i: nat, go: bool, now: int)
    requires Inv(s) && i < |s.threads| && s.threads[i].Apply?
    ensures LockOk(ApplyMove(d, s, i, go, now))
  {}

  lemma ApplyStored(d: Durations, s: State, i: nat, go: bool, now: int)
    requires Inv(s) && i < |s.threads| && s.threads[i].Apply?
    ensures StoredOk(ApplyMove(d, s, i, go, now))
  {
    var n := ApplyMove(d, s, i, go, now);
    forall w | 0 < w <= n.m.epoch ensures w in n.stored || Storing(n, w) {
      if w <= s.m.epoch { assert w in s.stored || Storing(s, w); }
    }
  }

  predicate Arms(s: State, i: nat, go: bool)
    requires i < |s.threads|
  {
    s.threads[i].Apply? && s.threads[i].apc == Written && !s.threads[i].save && go
  }

  lemma ApplyFields(d: Durations, s: State, i: nat, go: bool, now: int)
    requires i < |s.threads| && s.threads[i].Apply? && !Arms(s, i, go)
    ensures var n := ApplyMove(d, s, i, go, now);
      && n.threads == s.threads[i := n.threads[i]] && (n.threads[i].Apply? || n.threads[i] == Finished)
      && n.m.epoch == s.m.epoch && n.m.dispatched == s.m.dispatched && n.m.hasRollback == s.m.hasRollback
      && n.started == s.started && n.writes == s.writes && n.armedBy == s.armedBy
      && (n.m.pending ==> s.m.pending)
  {
    ApplyThreads(d, s, i, go, now);
  }

  lemma ApplyThreads(d: Durations, s: State, i: nat, go: bool, now: int)
    requires i < |s.threads| && s.threads[i].Apply? && !Arms(s, i, go)
    ensures var n := ApplyMove(d, s, i, go, now);
      n.threads == s.threads[i := n.threads[i]] && (n.threads[i].Apply? || n.threads[i] == Finished)
  {}

  lemma ApplyCounts(d: Durations, s: State, i: nat, go: bool, now: int)
    requires i < |s.threads| && s.threads[i].Apply? && !Arms(s, i, go)
    ensures var n := ApplyMove(d, s, i, go, now);
      && |n.threads| == |s.threads|
      && (BeforeArm(n.threads[i]) ==>
        if BeforeArm(s.threads[i]) then n.threads[i].id == s.threads[i].id && n.count == s.count
        else n.threads[i].id == s.count && n.count == s.count + 1)
      && s.count <= n.count && (n.count > s.count ==> s.mu == Free)
  {}

  lemma ApplyIds(d: Durations, s: State, i: nat, go: bool, now: int)
    requires Inv(s) && i < |s.threads| && s.threads[i].Apply?
    ensures IdsOk(ApplyMove(d, s, i, go, now))
  {
    if Arms(s, i, go) {
      ArmIds(d, s, i, now);
    } else {
      ApplyFields(d, s, i, go, now);
      ApplyCounts(d, s, i, go, now);
      NoneInside(s);
    }
  }

  lemma NoneInside(s: State)
    requires LockOk(s)
    ensures s.mu == Free ==> forall k :: 0 <= k < |s.threads| ==> !Holds(s.threads[k])
  {}

  lemma ArmIds(d: Durations, s: State, i: nat, now: int)
    requires Inv(s) && i < |s.threads| && Arms(s, i, true)
    ensures IdsOk(ArmMove(d, s, i, now))
  {
    OneInside(s, i);
    assert BeforeArm(s.threads[i]);
  }

  lemma ApplyLive(d: Durations, s: State, i: nat, go: bool, now: int)
    requires Inv(s) && i < |s.threads| && s.threads[i].Apply?
    ensures LiveOk(ApplyMove(d, s, i, go, now))
  {
    var t := s.threads[i];
    var n := ApplyMove(d, s, i, go, now);
    if t.apc == Waiting {
      NoneInside(s);
    } else {
      OneInside(s, i);
      if t.apc == Ready && go { assert Writing(n, n.threads[i]); }
      if t.apc == Written {
        assert Writing(s, t) && BeforeArm(t);
        assert s.m.epoch > 0 ==> s.m.epoch in s.armedBy;
      }
    }
  }

  lemma ApplyCurrent(d: Durations, s: State, i: nat, go: bool, now: int)
    requires Inv(s) && i < |s.threads| && s.threads[i].Apply?
    ensures CurrentOk(ApplyMove(d, s, i, go, now))
  {
    if Arms(s, i, go) { OneInside(s, i); } else { ApplyFields(d, s, i, go, now); }
  }

  lemma ApplyRest(d: Durations, s: State, i: nat, go: bool, now: int)
    requires Inv(s) && i < |s.threads| && s.threads[i].Apply?
    ensures var n := ApplyMove(d, s, i, go, now); WindowsOk(n) && StartedOk(n) && WritesOk(n)
  {
    if Arms(s, i, go) {
      ArmRest(d, s, i, now);
    } else {
      var n := ApplyMove(d, s, i, go, now);
      ApplyFields(d, s, i, go, now);
      forall w | w in n.writes ensures WriteOk(n, w) { assert WriteOk(s, w); }
    }
  }

  lemma ArmRest(d: Durations, s: State, i: nat, now: int)
    requires Inv(s) && i < |s.threads| && Arms(s, i, true)
    ensures var n := ArmMove(d, s, i, now); WindowsOk(n) && StartedOk(n) && WritesOk(n)
  {
    var n := ArmMove(d, s, i, now);
    forall w | w in n.writes ensures WriteOk(n, w) { assert WriteOk(s, w); }
    forall k | 0 <= k < |n.threads| ensures WindowOk(n, n.threads[k]) {
      if k < |s.threads| { assert WindowOk(s, s.threads[k]); }
    }
  }

  // ---- every run ----

  lemma RequestKeeps(d: Durations, s: State, e: Event)
    requires Inv(s) && !e.Move?
    ensures Inv(Next(d, s, e))
  {
    RequestStored(d, s, e);
    RequestLive(d, s, e);
    RequestThreads(d, s, e);
    RequestRest(d, s, e);
  }

  lemma RequestThreads(d: Durations, s: State, e: Event)
    requires Inv(s) && !e.Move?
    ensures var n := Next(d, s, e); LockOk(n) && IdsOk(n) && CurrentOk(n)
  {}

  lemma RequestRest(d: Durations, s: State, e: Event)
    requires Inv(s) && !e.Move?
    ensures var n := Next(d, s, e); WindowsOk(n) && StartedOk(n) && WritesOk(n)
  {
    var n := Next(d, s, e);
    forall w | w in n.writes ensures WriteOk(n, w) { assert WriteOk(s, w); }
    forall k | 0 <= k < |n.threads| ensures WindowOk(n, n.threads[k]) {
      if k < |s.threads| { assert WindowOk(s, s.threads[k]); }
    }
  }

  lemma RequestStored(d: Durations, s: State, e: Event)
    requires Inv(s) && !e.Move?
    ensures StoredOk(Next(d, s, e))
  {
    var n := Next(d, s, e);
    forall w | 0 < w <= n.m.epoch ensures w in n.stored || Storing(n, w) { assert w in s.stored || Storing(s, w); }
  }

  lemma RequestLive(d: Durations, s: State, e: Event)
    requires Inv(s) && !e.Move?
    ensures LiveOk(Next(d, s, e))
  {
    var n := Next(d, s, e);
    if s.live != s.base && !Guarded(s, s.live, s.m.epoch) {
      var k :| 0 <= k < |s.threads| && Writing(s, s.threads[k]);
      assert Writing(n, n.threads[k]);
    }
  }

  lemma NextKeeps(d: Durations, s: State, e: Event)
    requires Inv(s)
    ensures Inv(Next(d, s, e))
  {
    if !e.Move? {
      RequestKeeps(d, s, e);
    } else if e.i < |s.threads| {
      match s.threads[e.i]
      case Apply(_, _, _) => ApplyKeeps(d, s, e.i, e.go, e.now);
      case Loop(_, _) => LoopKeeps(d, s, e.i, e.now, e.ok);
      case Closure(_, _, _) => ClosureKeeps(s, e.i, e.go);
      case Finished =>
    }
  }

  lemma {:induction false} RunKeeps(d: Durations, s: State, es: seq<Event>)
    requires Inv(s)
    ensures Inv(Run(d, s, es))
    decreases es
  {
    if es != [] {
      NextKeeps(d, s, es[0]);
      RunKeeps(d, Next(d, s, es[0]), es[1..]);
    }
  }

  /** In every interleaving a window's rollback closure is started at most once. */
  lemma RollbackStartedOnce(d: Durations, es: seq<Event>)
    ensures Distinct(Run(d, START, es).started)
  {
    RunKeeps(d, START, es);
  }

  /**
   In every interleaving a closure restores only while its own window is current, and what it
   overwrites is the restored configuration itself, its own window's Apply, or a later Apply
   that was saved: never a later Apply left unsaved.
   */
  lemma RollbackStaysInWindow(d: Durations, es: seq<Event>, w: Write)
    requires w in Run(d, START, es).writes
    ensures w.epoch == w.window && w.window in Run(d, START, es).started && w.window in Run(d, START, es).armedBy
    ensures var own := Run(d, START, es).armedBy[w.window];
      w.over == w.restored || (w.over.Applied? && (w.over.id == own || (w.over.saved && w.over.id > own)))
  {
    RunKeeps(d, START, es);
    assert WriteOk(Run(d, START, es), w);
  }

  // ---- one restore per window ----

  predicate Active(t: Thread) { t.Closure? && !t.cpc.Reporting? }

  ghost predicate OnceOk(s: State) {
    && (forall i, j :: 0 <= i < j < |s.threads| && Active(s.threads[i]) && Active(s.threads[j]) ==>
      s.threads[i].window != s.threads[j].window)
    && (forall i, w :: 0 <= i < |s.threads| && w in s.writes && Active(s.threads[i])
          ==> s.threads[i].window != w.window)
    && (forall i, j :: 0 <= i < j < |s.writes| ==> s.writes[i].window != s.writes[j].window)
  }

  lemma ClosureFields(s: State, i: nat, go: bool)
    requires i < |s.threads| && s.threads[i].Closure?
    ensures var n, t := ClosureMove(s, i, go), s.threads[i];
      && n.threads == s.threads[i := n.threads[i]] && n.m.epoch == s.m.epoch && n.m.pending == s.m.pending
          && n.base == s.base
      && n.stored == s.stored && n.armedBy == s.armedBy && n.count == s.count
      && (Active(n.threads[i]) ==> Active(t) && n.threads[i].window == t.window)
      && (n.writes == s.writes ||
        (Active(t) && !Active(n.threads[i]) && n.writes == s.writes + [Write(t.window, s.m.epoch, s.live, s.base)]))
      && (n.threads[i].Loop? ==> n.threads[i].lpc == Top)
  {
    ClosureThreads(s, i, go);
  }

  lemma ClosureThreads(s: State, i: nat, go: bool)
    requires i < |s.threads| && s.threads[i].Closure?
    ensures var n, t := ClosureMove(s, i, go), s.threads[i];
      && n.threads == s.threads[i := n.threads[i]]
      && (Active(n.threads[i]) ==> Active(t) && n.threads[i].window == t.window)
  {}

  /** One thread moved; it is in a closure only if it was, or if its window is new. */
  lemma OnceMoved(s: State, n: State, i: nat, t: Thread)
    requires OnceOk(s) && i < |s.threads| && n.threads == s.threads[i := t] && n.writes == s.writes
    requires Active(t) ==>
      || (Active(s.threads[i]) && t.window == s.threads[i].window)
      || ((forall k :: 0 <= k < |s.threads| && Active(s.threads[k]) ==> s.threads[k].window != t.window) &&
          (forall w :: w in s.writes ==> w.window != t.window))
    ensures OnceOk(n)
  {}

  lemma OnceRestored(s: State, n: State, i: nat, t: Thread, w: Write)
    requires OnceOk(s) && i < |s.threads| && n.threads == s.threads[i := t] && n.writes == s.writes + [w]
    requires Active(s.threads[i]) && s.threads[i].window == w.window && !Active(t)
    ensures OnceOk(n)
  {}

  lemma OnceAdded(s: State, n: State, t: Thread)
    requires OnceOk(s) && n.threads == s.threads + [t] && n.writes == s.writes
    requires Active(t) ==>
      && (forall k :: 0 <= k < |s.threads| && Active(s.threads[k]) ==> s.threads[k].window != t.window)
      && (forall w :: w in s.writes ==> w.window != t.window)
    ensures OnceOk(n)
  {}

  lemma OnceNext(d: Durations, s: State, e: Event)
    requires Inv(s) && OnceOk(s)
    ensures OnceOk(Next(d, s, e))
  {
    var n := Next(d, s, e);
    match e
    case NewApply(save) => OnceAdded(s, n, Apply(0, save, Waiting));
    case Manual =>
      OnceEnters(s, s.m.epoch);
      if Fires(s.m) { OnceAdded(s, n, Closure(s.m.epoch, Want, false)); }
    case Confirm =>
    case Move(i, go, now, ok) =>
      if i < |s.threads| {
        match s.threads[i]
        case Apply(_, _, _) => OnceApply(d, s, i, go, now);
        case Loop(w, _) =>
          LoopFields(d, s, i, now, ok);
          OnceEnters(s, w);
          OnceMoved(s, n, i, n.threads[i]);
        case Closure(w, _, _) =>
          ClosureFields(s, i, go);
          if n.writes == s.writes {
            OnceMoved(s, n, i, n.threads[i]);
          } else {
            OnceRestored(s, n, i, n.threads[i], Write(w, s.m.epoch, s.live, s.base));
          }
        case Finished =>
      }
  }

  lemma OnceApply(d: Durations, s: State, i: nat, go: bool, now: int)
    requires OnceOk(s) && i < |s.threads| && s.threads[i].Apply?
    ensures OnceOk(ApplyMove(d, s, i, go, now))
  {
    var n := ApplyMove(d, s, i, go, now);
    if Arms(s, i, go) {
      var armed := s.threads[i].(apc := Windowed(n.m.epoch));
      var mid := s.(threads := s.threads[i := armed]);
      OnceMoved(s, mid, i, armed);
      OnceAdded(mid, n, Loop(n.m.epoch, Top));
    } else {
      ApplyFields(d, s, i, go, now);
      OnceMoved(s, n, i, n.threads[i]);
    }
  }

  lemma OnceEnters(s: State, window: nat)
    requires Inv(s)
    ensures MayClaim(s.m, window) ==>
      && (forall k :: 0 <= k < |s.threads| && Active(s.threads[k]) ==> s.threads[k].window != window)
      && (forall w :: w in s.writes ==> w.window != window)
  {
    forall k | 0 <= k < |s.threads| && Active(s.threads[k]) ensures s.threads[k].window in s.started {
      assert WindowOk(s, s.threads[k]);
    }
    forall w | w in s.writes ensures w.window in s.started { assert WriteOk(s, w); }
  }

  lemma {:induction false} OnceRun(d: Durations, s: State, es: seq<Event>)
    requires Inv(s) && OnceOk(s)
    ensures OnceOk(Run(d, s, es))
    decreases es
  {
    if es != [] {
      NextKeeps(d, s, es[0]);
      OnceNext(d, s, es[0]);
      OnceRun(d, Next(d, s, es[0]), es[1..]);
    }
  }

  /** In every interleaving a window restores the old configuration at most once. */
  lemma RestoredOnce(d: Durations, es: seq<Event>, i: nat, j: nat)
    requires i < j < |Run(d, START, es).writes|
    ensures Run(d, START, es).writes[i].window != Run(d, START, es).writes[j].window
  {
    OnceRun(d, START, es);
  }

  // ---- the rollback target ----

  /** While a window is open no step of any thread replaces the rollback target. */
  lemma BaselineKept(d: Durations, es: seq<Event>, e: Event)
    requires Run(d, START, es).m.pending
    ensures Next(d, Run(d, START, es), e).base == Run(d, START, es).base
  {
    RunKeeps(d, START, es);
    BaseMoves(d, Run(d, START, es), e);
  }

  lemma BaseMoves(d: Durations, s: State, e: Event)
    requires Inv(s) && s.m.pending
    ensures Next(d, s, e).base == s.base
  {
    if e.Move? && e.i < |s.threads| && s.threads[e.i].Apply? {
      assert s.threads[e.i].apc != Seen(false);
    }
  }

  /** The target changes only when an Apply that read the window closed takes its backup, and becomes what is live. */
  lemma BaseChanges(d: Durations, s: State, e: Event)
    requires Next(d, s, e).base != s.base
    ensures e.Move? && e.go && e.i < |s.threads| && s.threads[e.i].Apply? && s.threads[e.i].apc == Seen(false)
    ensures Next(d, s, e).base == s.live
  {}

  // ---- what a confirmation withdraws ----

  /**
   A thread that can still restore in the current window: a started closure that has not
   finished, or a loop about to claim one.
   */
  predicate Threat(s: State, t: Thread) {
    || (Active(t) && t.window == s.m.epoch)
    || (t.Loop? && t.lpc == AtClaim && MayClaim(s.m, t.window))
  }

  ghost predicate Threatened(s: State) { exists i :: 0 <= i < |s.threads| && Threat(s, s.threads[i]) }

  ghost predicate Calm(s: State) { !s.m.pending && !Threatened(s) }

  lemma EpochGrows(d: Durations, s: State, e: Event)
    ensures Next(d, s, e).m.epoch >= s.m.epoch
  {
    if e.Move? && e.i < |s.threads| {
      match s.threads[e.i]
      case Apply(_, _, _) => if !Arms(s, e.i, e.go) { ApplyFields(d, s, e.i, e.go, e.now); }
      case Loop(_, _) => LoopFields(d, s, e.i, e.now, e.ok);
      case Closure(_, _, _) => ClosureFields(s, e.i, e.go);
      case Finished =>
    }
  }

  lemma {:induction false} EpochGrowsRun(d: Durations, s: State, es: seq<Event>)
    ensures Run(d, s, es).m.epoch >= s.m.epoch
    decreases es
  {
    if es != [] {
      EpochGrows(d, s, es[0]);
      EpochGrowsRun(d, Next(d, s, es[0]), es[1..]);
    }
  }

  /** One thread moved, to no threat, and the window was not reopened. */
  lemma CalmMoved(s: State, n: State, i: nat)
    requires Calm(s) && i < |s.threads| == |n.threads| && n.threads == s.threads[i := n.threads[i]]
        && !Threat(n, n.threads[i])
    requires n.m.epoch == s.m.epoch && !n.m.pending && (s.m.dispatched ==> n.m.dispatched)
    ensures Calm(n)
  {
    forall k | 0 <= k < |n.threads| ensures !Threat(n, n.threads[k]) {
      if k != i { assert !Threat(s, s.threads[k]); }
    }
  }

  lemma CalmStays(d: Durations, s: State, e: Event)
    requires Inv(s) && Calm(s) && e != Manual && Next(d, s, e).m.epoch == s.m.epoch
    ensures Calm(Next(d, s, e)) && Next(d, s, e).writes == s.writes
  {
    var n := Next(d, s, e);
    match e
    case NewApply(save) => CalmRequest(s, n);
    case Confirm => CalmRequest(s, n);
    case Move(i, go, now, ok) =>
      if i < |s.threads| {
        assert !Threat(s, s.threads[i]);
        match s.threads[i]
        case Apply(_, _, _) => CalmApply(d, s, i, go, now);
        case Loop(_, _) => CalmLoop(d, s, i, now, ok);
        case Closure(_, _, _) => CalmClosure(s, i, go);
        case Finished =>
      }
  }

  lemma CalmRequest(s: State, n: State)
    requires Calm(s) && s.threads <= n.threads && n.m.epoch == s.m.epoch && !n.m.pending
        && n.m.dispatched == s.m.dispatched
    requires forall k :: |s.threads| <= k < |n.threads| ==> n.threads[k].Apply?
    ensures Calm(n)
  {
    forall k | 0 <= k < |n.threads| ensures !Threat(n, n.threads[k]) {
      if k < |s.threads| { assert !Threat(s, s.threads[k]); }
    }
  }

  lemma CalmApply(d: Durations, s: State, i: nat, go: bool, now: int)
    requires Calm(s) && i < |s.threads| && s.threads[i].Apply? && ApplyMove(d, s, i, go, now).m.epoch == s.m.epoch
    ensures Calm(ApplyMove(d, s, i, go, now)) && ApplyMove(d, s, i, go, now).writes == s.writes
  {
    assert !Arms(s, i, go);
    ApplyFields(d, s, i, go, now);
    CalmMoved(s, ApplyMove(d, s, i, go, now), i);
  }

  lemma CalmLoop(d: Durations, s: State, i: nat, now: int, ok: bool)
    requires Calm(s) && i < |s.threads| && s.threads[i].Loop? && !Threat(s, s.threads[i])
    ensures Calm(LoopMove(d, s, i, now, ok)) && LoopMove(d, s, i, now, ok).writes == s.writes
  {
    var n := LoopMove(d, s, i, now, ok);
    LoopFields(d, s, i, now, ok);
    CalmMoved(s, n, i);
  }

  /** A closure of another window finds that out under the lock and skips. */
  lemma CalmClosure(s: State, i: nat, go: bool)
    requires Inv(s) && Calm(s) && i < |s.threads| && s.threads[i].Closure? && !Threat(s, s.threads[i])
    ensures Calm(ClosureMove(s, i, go)) && ClosureMove(s, i, go).writes == s.writes
  {
    var n := ClosureMove(s, i, go);
    ClosureFields(s, i, go);
    if s.threads[i].cpc == Entered { LoadedIsOwn(s, i); }
    CalmMoved(s, n, i);
  }

  lemma {:induction false} CalmRun(d: Durations, s: State, es: seq<Event>)
    requires Inv(s) && Calm(s) && Manual !in es && Run(d, s, es).m.epoch == s.m.epoch
    ensures Run(d, s, es).writes == s.writes
    decreases es
  {
    if es != [] {
      var n := Next(d, s, es[0]);
      assert es[0] in es;
      forall e | e in es[1..] ensures e in es {}
      EpochGrows(d, s, es[0]);
      EpochGrowsRun(d, n, es[1..]);
      CalmStays(d, s, es[0]);
      NextKeeps(d, s, es[0]);
      CalmRun(d, n, es[1..]);
    }
  }

  /** A continuation that restores without being asked and without a new window. */
  ghost predicate Restores(d: Durations, s: State, es: seq<Event>) {
    Manual !in es && Run(d, s, es).m.epoch == s.m.epoch && Run(d, s, es).writes != s.writes
  }

  // ---- letting a threat through ----

  /** The holder of `applyMu` can leave without a new window and without restoring. */
  function LeaveMoves(t: Thread, o: nat): seq<Event> {
    var stop := Move(o, false, 0, false);
    match t
    case Apply(_, save, apc) =>
      (match apc
       case Waiting => []
       case Locked => [stop]
       case Seen(_) => [stop, stop]
       case Ready => [stop]
       case Written => if save then [stop, stop] else [stop]
       case Windowed(_) => [stop, stop]
       case Leaving => [stop])
    case _ => [stop]
  }

  lemma OneMove(d: Durations, s: State, e: Event)
    ensures Run(d, s, [e]) == Next(d, s, e)
  {
    assert [e][1..] == [];
  }

  lemma TwoMoves(d: Durations, s: State, e: Event, f: Event)
    ensures Run(d, s, [e, f]) == Next(d, Next(d, s, e), f)
  {
    assert [e, f][1..] == [f];
    OneMove(d, Next(d, s, e), f);
  }

  /** What leaving keeps. */
  ghost predicate LeftAlone(s: State, n: State, o: nat) {
    && n.mu == Free && n.m.epoch == s.m.epoch && n.writes == s.writes && |n.threads| == |s.threads|
    && forall k :: 0 <= k < |s.threads| && k != o ==> n.threads[k] == s.threads[k]
  }

  lemma HolderLeaves(d: Durations, s: State, o: nat)
    requires Inv(s) && s.mu == Held(o) && !(s.threads[o].Closure? && s.threads[o].window == s.m.epoch)
    ensures var n := Run(d, s, LeaveMoves(s.threads[o], o)); LeftAlone(s, n, o)
  {
    var t, stop := s.threads[o], Move(o, false, 0, false);
    assert Holds(t);
    OneMove(d, s, stop);
    TwoMoves(d, s, stop, stop);
    if t.Closure? {
      if t.cpc == Entered { LoadedIsOwn(s, o); }
    }
  }

  lemma NoManual(t: Thread, o: nat)
    ensures Manual !in LeaveMoves(t, o)
  {}

  /** A closure of the current window that holds the lock restores. */
  lemma {:induction false} EnteredRestores(d: Durations, s: State, i: nat) returns (es: seq<Event>)
    requires Inv(s) && i < |s.threads| && s.threads[i].Closure? && s.threads[i].window == s.m.epoch
    requires s.threads[i].cpc == Entered || s.threads[i].cpc == Restoring
    ensures Restores(d, s, es)
  {
    var go := Move(i, true, 0, false);
    if s.threads[i].cpc == Restoring {
      es := [go];
      OneMove(d, s, go);
    } else {
      es := [go, go];
      LoadedIsOwn(s, i);
      TwoMoves(d, s, go, go);
    }
  }

  lemma {:induction false} RestoresAfter(d: Durations, s: State, a: seq<Event>, b: seq<Event>)
    requires Manual !in a && Run(d, s, a).m.epoch == s.m.epoch && Run(d, s, a).writes == s.writes
        && Restores(d, Run(d, s, a), b)
    ensures Restores(d, s, a + b)
  {
    RunConcat(d, s, a, b);
  }

  /** A waiting closure of the current window gets the lock once its holder has left, and restores. */
  lemma WantingRestores(d: Durations, s: State, i: nat) returns (es: seq<Event>)
    requires Inv(s) && OnceOk(s) && i < |s.threads|
    requires s.threads[i].Closure? && s.threads[i].cpc == Want && s.threads[i].window == s.m.epoch
    ensures Restores(d, s, es)
  {
    var leave: seq<Event> := [];
    if s.mu.Held? {
      var o := s.mu.owner;
      assert Holds(s.threads[o]) && o != i;
      if s.threads[o].Closure? { assert Active(s.threads[o]) && Active(s.threads[i]); }
      HolderLeaves(d, s, o);
      NoManual(s.threads[o], o);
      leave := LeaveMoves(s.threads[o], o);
    }
    var free := Run(d, s, leave);
    RunKeeps(d, s, leave);
    var enter := Move(i, true, 0, false);
    var inside := Next(d, free, enter);
    NextKeeps(d, free, enter);
    OneMove(d, free, enter);
    var rest := EnteredRestores(d, inside, i);
    RestoresAfter(d, free, [enter], rest);
    RestoresAfter(d, s, leave, [enter] + rest);
    es := leave + ([enter] + rest);
  }

  lemma ThreatRestores(d: Durations, s: State, i: nat) returns (es: seq<Event>)
    requires Inv(s) && OnceOk(s) && i < |s.threads| && Threat(s, s.threads[i])
    ensures Restores(d, s, es)
  {
    var t := s.threads[i];
    if t.Loop? {
      var claim := Move(i, true, 0, false);
      NextKeeps(d, s, claim);
      OnceNext(d, s, claim);
      OneMove(d, s, claim);
      var rest := WantingRestores(d, Next(d, s, claim), i);
      RestoresAfter(d, s, [claim], rest);
      es := [claim] + rest;
    } else if t.cpc == Want {
      es := WantingRestores(d, s, i);
    } else {
      es := EnteredRestores(d, s, i);
    }
  }

  /**
   Exactly when a closed window can still restore the old configuration, with no one asking
   for it and no new window: when a started closure of this window is not done, or a loop of
   it has decided and not yet claimed.
   */
  lemma ClosedRestoresIff(d: Durations, before: seq<Event>)
    requires !Run(d, START, before).m.pending
    ensures var s := Run(d, START, before); (exists es :: Restores(d, s, es)) <==> Threatened(s)
  {
    var s := Run(d, START, before);
    RunKeeps(d, START, before);
    OnceRun(d, START, before);
    if Threatened(s) {
      var i :| 0 <= i < |s.threads| && Threat(s, s.threads[i]);
      var es := ThreatRestores(d, s, i);
      assert Restores(d, s, es);
    } else {
      forall es ensures !Restores(d, s, es) {
        if Restores(d, s, es) { CalmRun(d, s, es); }
      }
    }
  }

  // ---- the guard a caller can read ----

  predicate DecidedFor(t: Thread, window: nat) { t.Loop? && t.lpc == AtClaim && t.window == window }

  /** A loop about to claim for the current window was told so by a tick that set `rolledBack`. */
  ghost predicate DecidedOk(s: State) {
    forall i :: 0 <= i < |s.threads| && DecidedFor(s.threads[i], s.m.epoch) ==> s.m.rolledBack
  }

  lemma DecidedNext(d: Durations, s: State, e: Event)
    requires Inv(s) && DecidedOk(s)
    ensures DecidedOk(Next(d, s, e))
  {
    if e.Move? && e.i < |s.threads| {
      var i := e.i;
      match s.threads[i]
      case Apply(_, _, _) => DecidedApply(d, s, i, e.go, e.now);
      case Loop(_, _) => DecidedLoop(d, s, i, e.now, e.ok);
      case Closure(_, _, _) => ClosureFields(s, i, e.go);
      case Finished =>
    }
  }

  lemma DecidedApply(d: Durations, s: State, i: nat, go: bool, now: int)
    requires Inv(s) && DecidedOk(s) && i < |s.threads| && s.threads[i].Apply?
    ensures DecidedOk(ApplyMove(d, s, i, go, now))
  {
    var n := ApplyMove(d, s, i, go, now);
    if Arms(s, i, go) {
      forall k | 0 <= k < |n.threads| && n.threads[k].Loop? && n.threads[k].lpc == AtClaim
        ensures n.threads[k].window < n.m.epoch {
        assert WindowOk(s, s.threads[k]);
      }
    } else {
      ApplyFields(d, s, i, go, now);
    }
  }

  lemma DecidedLoop(d: Durations, s: State, i: nat, now: int, ok: bool)
    requires Inv(s) && DecidedOk(s) && i < |s.threads| && s.threads[i].Loop?
    ensures DecidedOk(LoopMove(d, s, i, now, ok))
  {
    TickEffect(d, s.m, now, ok);
    LoopFields(d, s, i, now, ok);
  }

  lemma {:induction false} DecidedRun(d: Durations, s: State, es: seq<Event>)
    requires Inv(s) && DecidedOk(s)
    ensures DecidedOk(Run(d, s, es))
    decreases es
  {
    if es != [] {
      NextKeeps(d, s, es[0]);
      DecidedNext(d, s, es[0]);
      DecidedRun(d, Next(d, s, es[0]), es[1..]);
    }
  }

  lemma UndecidedIsCalm(s: State)
    requires Inv(s) && DecidedOk(s) && !s.m.rolledBack && !s.m.dispatched
    ensures !Threatened(s)
  {
    forall i | 0 <= i < |s.threads| ensures !Threat(s, s.threads[i]) {
      assert WindowOk(s, s.threads[i]);
    }
  }

  /**
   The guard a caller can read off the manager: a window closed while no rollback was decided
   or dispatched, by a confirmation, a saved Apply or its own deadline, restores nothing until
   someone asks for a rollback or arms the next window.
   */
  lemma ConfirmedStays(d: Durations, before: seq<Event>, after: seq<Event>)
    requires var s := Run(d, START, before); !s.m.pending && !s.m.rolledBack && !s.m.dispatched
    requires Manual !in after && Run(d, Run(d, START, before), after).m.epoch == Run(d, START, before).m.epoch
    ensures Run(d, Run(d, START, before), after).writes == Run(d, START, before).writes
  {
    RunKeeps(d, START, before);
    DecidedRun(d, START, before);
    UndecidedIsCalm(Run(d, START, before));
    CalmRun(d, Run(d, START, before), after);
  }

  // ---- what a confirmation establishes ----

  /** The steps that make the live configuration final: a confirmation, and the end of a saved Apply. */
  predicate Commits(s: State, e: Event) {
    || e == Confirm
    || (e.Move? && e.i < |s.threads| && s.threads[e.i].Apply? && s.threads[e.i].apc == Written && s.threads[e.i].save)
  }

  /** Either closes the window, without touching what is live or what a rollback would restore. */
  lemma CommitCloses(d: Durations, s: State, e: Event)
    requires Commits(s, e)
    ensures var n := Next(d, s, e);
      && !n.m.pending && n.m.phase == Committed && s.m.epoch in n.cancelled
      && n.m.epoch == s.m.epoch && n.live == s.live && n.base == s.base && n.writes == s.writes
  {}

  /** Only an unsaved Apply that has written its configuration opens a window, and always the next one. */
  lemma OnlyArmOpens(d: Durations, s: State, e: Event)
    ensures var n := Next(d, s, e);
      && (n.m.epoch != s.m.epoch <==> e.Move? && e.i < |s.threads| && Arms(s, e.i, e.go))
      && (n.m.epoch != s.m.epoch ==>
            n.m.epoch == s.m.epoch + 1 && n.m.pending && n.m.phase == Armed && s.m.epoch in n.cancelled)
      && (n.m.epoch == s.m.epoch && n.m.pending ==> s.m.pending)
  {
    if e.Move? && e.i < |s.threads| {
      match s.threads[e.i]
      case Apply(_, _, _) => if !Arms(s, e.i, e.go) { ApplyFields(d, s, e.i, e.go, e.now); }
      case Loop(_, _) => LoopFields(d, s, e.i, e.now, e.ok);
      case Closure(_, _, _) => ClosureFields(s, e.i, e.go);
      case Finished =>
    }
  }

  /** A manual rollback closes the window at once, and starts its closure unless one was started. */
  lemma ManualCloses(d: Durations, s: State)
    ensures var n := Next(d, s, Manual);
      && !n.m.pending && n.m.phase == RolledBack && n.m.dispatched && s.m.epoch in n.cancelled
      && n.m.epoch == s.m.epoch && n.live == s.live && n.base == s.base
      && (if !s.m.dispatched && s.m.hasRollback then n.threads == s.threads + [Closure(s.m.epoch, Want, false)]
          else n.threads == s.threads)
  {}

  /** A rollback that cannot restore leaves the live configuration, and its thread's next step says so. */
  lemma FailedRestoreShown(d: Durations, s: State, i: nat, t1: int, t2: int, go: bool, others: seq<Event>)
    requires i < |s.threads| && s.threads[i].Closure? && s.threads[i].cpc == Restoring
    requires forall e :: e in others && e.Move? ==> e.i != i
    ensures var n := Next(d, s, Move(i, false, t1, false));
      var later := Run(d, n, others);
      n.live == s.live && n.base == s.base && n.mu == Free
      && Next(d, later, Move(i, go, t2, false)).m.phase == RollbackFailed
  {
    var n := Next(d, s, Move(i, false, t1, false));
    Parked(d, n, others, i, n.threads[i]);
  }

  /** A closure that reports stays where it is until its own step. */
  lemma {:induction false} Parked(d: Durations, s: State, es: seq<Event>, i: nat, t: Thread)
    requires i < |s.threads| && s.threads[i] == t && forall e :: e in es && e.Move? ==> e.i != i
    ensures i < |Run(d, s, es).threads| && Run(d, s, es).threads[i] == t
    decreases es
  {
    if es != [] {
      assert es[0] in es;
      forall e | e in es[1..] ensures e in es {}
      OthersStay(d, s, es[0], i);
      Parked(d, Next(d, s, es[0]), es[1..], i, t);
    }
  }

  lemma OthersStay(d: Durations, s: State, e: Event, i: nat)
    requires i < |s.threads| && (e.Move? ==> e.i != i)
    ensures i < |Next(d, s, e).threads| && Next(d, s, e).threads[i] == s.threads[i]
  {
    if e.Move? && e.i < |s.threads| {
      match s.threads[e.i]
      case Apply(_, _, _) => if !Arms(s, e.i, e.go) { ApplyFields(d, s, e.i, e.go, e.now); }
      case Loop(_, _) => LoopFields(d, s, e.i, e.now, e.ok);
      case Closure(_, _, _) => ClosureFields(s, e.i, e.go);
      case Finished =>
    }
  }

  /** The run loop of a closed or superseded window ends within two of its own steps. */
  lemma ClosedLoopEnds(d: Durations, s: State, i: nat, a: Event, b: Event)
    requires i < |s.threads| && s.threads[i].Loop? && s.threads[i].lpc == Top
    requires s.threads[i].window in s.cancelled || !s.m.pending
    requires a.Move? && b.Move? && a.i == i == b.i
    ensures Next(d, Next(d, s, a), b).threads[i] == Finished
  {}

  /** A closed window stays closed until the next one is armed. */
  lemma {:induction false} ClosedUntilArm(d: Durations, s: State, es: seq<Event>)
    requires !s.m.pending && Run(d, s, es).m.epoch == s.m.epoch
    ensures !Run(d, s, es).m.pending
    decreases es
  {
    if es != [] {
      EpochGrows(d, s, es[0]);
      EpochGrowsRun(d, Next(d, s, es[0]), es[1..]);
      OnlyArmOpens(d, s, es[0]);
      ClosedUntilArm(d, Next(d, s, es[0]), es[1..]);
    }
  }

  // ---- whose configuration becomes the target ----

  /** A rollback of the current window is started and has not restored yet. */
  ghost predicate Owed(s: State) {
    exists k :: 0 <= k < |s.threads| && Active(s.threads[k]) && s.threads[k].window == s.m.epoch
  }

  /** An Apply between reading the window and taking its backup. */
  predicate Backing(s: State, i: nat, pending: bool) {
    i < |s.threads| && s.threads[i].Apply? && s.threads[i].apc == Seen(pending)
  }

  /** It holds `applyMu`, so no step of another thread touches the configurations, the epoch, or a waiting closure. */
  lemma FrozenStep(d: Durations, s: State, i: nat, p: bool, e: Event)
    requires Inv(s) && Backing(s, i, p) && (e.Move? ==> e.i != i)
    ensures var n := Next(d, s, e);
      Backing(n, i, p) && n.live == s.live && n.base == s.base && n.m.epoch == s.m.epoch && (Owed(s) ==> Owed(n))
  {
    var n := Next(d, s, e);
    assert Holds(s.threads[i]) && s.mu == Held(i);
    OneInside(s, i);
    if e.Move? && e.i < |s.threads| {
      if s.threads[e.i].Loop? { LoopFields(d, s, e.i, e.now, e.ok); }
    }
    if Owed(s) { StaysOwed(d, s, i, p, e); }
  }

  lemma StaysOwed(d: Durations, s: State, i: nat, p: bool, e: Event)
    requires Inv(s) && Backing(s, i, p) && (e.Move? ==> e.i != i) && Owed(s) && Next(d, s, e).m.epoch == s.m.epoch
    ensures Owed(Next(d, s, e))
  {
    OneInside(s, i);
    assert Holds(s.threads[i]) && s.mu == Held(i);
    var k :| 0 <= k < |s.threads| && Active(s.threads[k]) && s.threads[k].window == s.m.epoch;
    assert s.threads[k].cpc == Want;
    WantWaits(d, s, k, e);
  }

  /** A closure at the lock waits while anyone holds it. */
  lemma WantWaits(d: Durations, s: State, k: nat, e: Event)
    requires k < |s.threads| && s.threads[k].Closure? && s.threads[k].cpc == Want && s.mu != Free
    ensures var n := Next(d, s, e); k < |n.threads| && n.threads[k] == s.threads[k]
  {
    if e.Move? && e.i < |s.threads| {
      match s.threads[e.i]
      case Apply(_, _, _) => if !Arms(s, e.i, e.go) { ApplyFields(d, s, e.i, e.go, e.now); }
      case Loop(_, _) => LoopFields(d, s, e.i, e.now, e.ok);
      case Closure(_, _, _) =>
      case Finished =>
    }
  }

  lemma {:induction false} FrozenRun(d: Durations, s: State, i: nat, p: bool, es: seq<Event>)
    requires Inv(s) && Backing(s, i, p) && forall e :: e in es && e.Move? ==> e.i != i
    ensures var n := Run(d, s, es);
      Backing(n, i, p) && n.live == s.live && n.base == s.base && n.m.epoch == s.m.epoch && (Owed(s) ==> Owed(n))
    decreases es
  {
    if es != [] {
      assert es[0] in es;
      forall e | e in es[1..] ensures e in es {}
      NextKeeps(d, s, es[0]);
      FrozenStep(d, s, i, p, es[0]);
      FrozenRun(d, Next(d, s, es[0]), i, p, es[1..]);
    }
  }

  /** An Apply that reads the window closed takes what is live as the target, whatever others do meanwhile. */
  lemma BacksUpLive(d: Durations, s: State, i: nat, others: seq<Event>, t1: int, t2: int)
    requires Inv(s) && !s.m.pending && i < |s.threads| && s.threads[i].Apply? && s.threads[i].apc == Locked
    requires forall x :: x in others && x.Move? ==> x.i != i
    ensures var read := Run(d, Next(d, s, Move(i, true, t1, false)), others);
      var n := Next(d, read, Move(i, true, t2, false));
      Backing(read, i, false) && n.base == s.live == n.live
  {
    var seen := Next(d, s, Move(i, true, t1, false));
    NextKeeps(d, s, Move(i, true, t1, false));
    FrozenRun(d, seen, i, false, others);
  }

  /**
   After a confirmation or a saved Apply, in every interleaving, the next Apply to read the
   window before another is armed reads it as closed, and its backup makes the configuration
   that was live when it read, and still is, the rollback target.
   */
  lemma CommittedBecomesTarget(d: Durations, before: seq<Event>, e: Event, between: seq<Event>, i: nat,
        others: seq<Event>, t1: int, t2: int)
    requires Commits(Run(d, START, before), e)
    requires var n := Next(d, Run(d, START, before), e);
      var s := Run(d, n, between);
      s.m.epoch == n.m.epoch && i < |s.threads| && s.threads[i].Apply? && s.threads[i].apc == Locked
    requires forall x :: x in others && x.Move? ==> x.i != i
    ensures var s := Run(d, Next(d, Run(d, START, before), e), between);
      var read := Run(d, Next(d, s, Move(i, true, t1, false)), others);
      var n := Next(d, read, Move(i, true, t2, false));
      !s.m.pending && Backing(read, i, false) && n.base == s.live == n.live
  {
    var was := Run(d, START, before);
    RunKeeps(d, START, before);
    NextKeeps(d, was, e);
    RunKeeps(d, Next(d, was, e), between);
    CommitCloses(d, was, e);
    ClosedUntilArm(d, Next(d, was, e), between);
    BacksUpLive(d, Run(d, Next(d, was, e), between), i, others, t1, t2);
  }

  /**
   An Apply gets `applyMu` while a started rollback of the current window is still owed. With
   any steps of others in between, it takes the configuration being rolled back as the new
   target if and only if it reads the window as closed.
   */
  lemma RejectedBaselineIff(d: Durations, before: seq<Event>, i: nat, others: seq<Event>, t1: int, t2: int)
    requires var s := Run(d, START, before);
      i < |s.threads| && s.threads[i].Apply? && s.threads[i].apc == Locked && Owed(s) && s.live != s.base
    requires forall e :: e in others && e.Move? ==> e.i != i
    ensures var s := Run(d, START, before);
      var read := Run(d, Next(d, s, Move(i, true, t1, false)), others);
      var n := Next(d, read, Move(i, true, t2, false));
      && Owed(n) && (n.base == s.live <==> !s.m.pending) && (s.m.pending ==> n.base == s.base)
  {
    var s := Run(d, START, before);
    RunKeeps(d, START, before);
    var seen := Next(d, s, Move(i, true, t1, false));
    NextKeeps(d, s, Move(i, true, t1, false));
    OwedKept(s, seen, i);
    FrozenRun(d, seen, i, s.m.pending, others);
    var read := Run(d, seen, others);
    OwedKept(read, Next(d, read, Move(i, true, t2, false)), i);
  }

  lemma OwedKept(s: State, n: State, i: nat)
    requires Owed(s) && i < |s.threads| == |n.threads| && s.threads[i].Apply?
    requires n.m.epoch == s.m.epoch && n.threads == s.threads[i := n.threads[i]]
    ensures Owed(n)
  {
    var k :| 0 <= k < |s.threads| && Active(s.threads[k]) && s.threads[k].window == s.m.epoch;
    assert n.threads[k] == s.threads[k];
  }

  // ---- runs where the promise is not kept ----

  function Go(i: nat): Event { Move(i, true, 0, false) }

  lemma {:induction false} RunConcat(d: Durations, s: State, a: seq<Event>, b: seq<Event>)
    ensures Run(d, s, a + b) == Run(d, Run(d, s, a), b)
    decreases a
  {
    if a == [] {
      assert a + b == b;
    } else {
      assert (a + b)[1..] == a[1..] + b;
      RunConcat(d, Next(d, s, a[0]), a[1..], b);
    }
  }

  /** An unsaved Apply, from request to release of `applyMu`. */
  const FIRST := [NewApply(false), Go(0), Go(0), Go(0), Go(0), Go(0), Go(0), Go(0)]
  const OPEN := State(
    Arming(DEFAULTS, IDLE, 0, true), Free, Applied(0, false), Initial, 1, map[1 := 1], {0},
    [Finished, Loop(1, Top)], map[1 := 0], [], [])

  /** Its run loop finds connectivity lost for 45 seconds. */
  const OUTAGE := [Go(1), Go(1), Go(1), Go(1), Go(1), Move(1, true, 45_000, false)]
  const LOST := OPEN.(
    m := OPEN.m.(bad := true, rolledBack := true, phase := RolledBack, lastAt := 45_000),
    threads := [Finished, Loop(1, AtClaim)])

  lemma FirstApply()
    ensures Run(DEFAULTS, START, FIRST) == OPEN
  {}

  lemma OutageDecides()
    ensures Run(DEFAULTS, OPEN, OUTAGE) == LOST
  {}

  /** The loop claims, then a saved Apply runs to its end, then the claimed closure runs. */
  const SAVED_LATER := [Go(1), NewApply(true), Go(2), Go(2), Go(2), Go(2), Go(2), Go(2), Go(1), Go(1), Go(1)]

  /** A saved Apply does not supersede the window, so a rollback claimed before it overwrites it. */
  lemma SavedApplyOverwritten()
    ensures var s := Run(DEFAULTS, START, FIRST + OUTAGE + SAVED_LATER);
      s.writes == [Write(1, 1, Applied(1, true), Initial)] && s.live == Initial && s.armedBy == map[1 := 0]
  {
    RunConcat(DEFAULTS, START, FIRST + OUTAGE, SAVED_LATER);
    RunConcat(DEFAULTS, START, FIRST, OUTAGE);
    FirstApply();
    OutageDecides();
    SavedLater();
  }

  lemma SavedLater()
    ensures var s := Run(DEFAULTS, LOST, SAVED_LATER);
      s.writes == [Write(1, 1, Applied(1, true), Initial)] && s.live == Initial && s.armedBy == map[1 := 0]
  {
    RunConcat(DEFAULTS, LOST, SAVED_LATER[..5], SAVED_LATER[5..]);
    assert SAVED_LATER[..5] + SAVED_LATER[5..] == SAVED_LATER;
    assert SAVED_LATER[..5] == [Go(1), NewApply(true), Go(2), Go(2), Go(2)];
    assert SAVED_LATER[5..] == [Go(2), Go(2), Go(2), Go(1), Go(1), Go(1)];
    SavedEnters();
    SavedEnds();
  }

  const CLAIMED := LOST.(
    m := LOST.m.(dispatched := true), mu := Held(2), count := 2, started := [1],
    threads := [Finished, Closure(1, Want, true), Apply(1, true, Ready)])

  lemma SavedEnters()
    ensures Run(DEFAULTS, LOST, [Go(1), NewApply(true), Go(2), Go(2), Go(2)]) == CLAIMED
  {}

  lemma SavedEnds()
    ensures var s := Run(DEFAULTS, CLAIMED, [Go(2), Go(2), Go(2), Go(1), Go(1), Go(1)]);
      s.writes == [Write(1, 1, Applied(1, true), Initial)] && s.live == Initial && s.armedBy == map[1 := 0]
  {}

  /** The user confirms after the loop decided, before it claimed. */
  const CONFIRMED_LATE := [Confirm, Go(1), Go(1), Go(1), Go(1)]

  /** A confirmation does not withdraw a rollback that is decided but not yet claimed. */
  lemma ConfirmedOverwritten()
    ensures var s := Run(DEFAULTS, START, FIRST + OUTAGE + CONFIRMED_LATE);
      s.writes == [Write(1, 1, Applied(0, false), Initial)] && s.m.phase == Committed
  {
    RunConcat(DEFAULTS, START, FIRST + OUTAGE, CONFIRMED_LATE);
    RunConcat(DEFAULTS, START, FIRST, OUTAGE);
    FirstApply();
    OutageDecides();
    ConfirmedLate();
  }

  lemma ConfirmedLate()
    ensures var s := Run(DEFAULTS, LOST, CONFIRMED_LATE);
      s.writes == [Write(1, 1, Applied(0, false), Initial)] && s.m.phase == Committed
  {}

  /** A manual rollback waits for `applyMu` while another Apply takes it first. */
  const OVERTAKEN := [Manual, NewApply(false), Go(3), Go(3), Go(3), Go(3), Go(3), Go(3), Go(3), Go(2), Go(2)]

  /**
   The manual rollback closes the window before its closure runs, so the overtaking Apply takes the
   rejected configuration as its rollback target.
   */
  lemma RejectedBecomesBaseline()
    ensures var s := Run(DEFAULTS, START, FIRST + OVERTAKEN);
      s.base == Applied(0, false) && s.started == [1] && s.writes == [] && s.m.pending
  {
    RunConcat(DEFAULTS, START, FIRST, OVERTAKEN);
    FirstApply();
    Overtaken();
  }

  lemma Overtaken()
    ensures var s := Run(DEFAULTS, OPEN, OVERTAKEN);
      s.base == Applied(0, false) && s.started == [1] && s.writes == [] && s.m.pending
  {
    RunConcat(DEFAULTS, OPEN, OVERTAKEN[..5], OVERTAKEN[5..]);
    assert OVERTAKEN[..5] + OVERTAKEN[5..] == OVERTAKEN;
    assert OVERTAKEN[..5] == [Manual, NewApply(false), Go(3), Go(3), Go(3)];
    assert OVERTAKEN[5..] == [Go(3), Go(3), Go(3), Go(3), Go(2), Go(2)];
    OvertakerEnters();
    OvertakerEnds();
  }

  const REJECTED := OPEN.(
    m := RollingBack(OPEN.m), mu := Held(3), base := Applied(0, false), count := 2, cancelled := {0, 1}, started := [1],
    threads := [Finished, Loop(1, Top), Closure(1, Want, false), Apply(1, false, Ready)])

  lemma OvertakerEnters()
    ensures Run(DEFAULTS, OPEN, [Manual, NewApply(false), Go(3), Go(3), Go(3)]) == REJECTED
  {}

  lemma OvertakerEnds()
    ensures var s := Run(DEFAULTS, REJECTED, [Go(3), Go(3), Go(3), Go(3), Go(2), Go(2)]);
      s.base == Applied(0, false) && s.started == [1] && s.writes == [] && s.m.pending
  {}
}
