/**
 The baseline file `<config>.good` and the two handlers that write it: the saved Apply of
 `internal/server/profile.go`, which holds `applyMu`, and the confirmation of
 `internal/server/failsafe.go`, which does not. Both call `Commit` of
 `internal/core/singbox.go`, and so the write of `internal/atomicfile`: open and truncate the
 staging file, write, sync, rename. A name leads to an inode, and an open file stays at its
 inode when the name moves.
 */
module CommitRace {
  import opened Profiles

  /** Where a handler is; `ino` is the inode it has open. */
  datatype Pc =
    | Waiting | Holding
    | Fresh | HasRead(data: string) | HasOpened(data: string, ino: nat) | HasWritten(ino: nat)
    | Leaving | Finished

  /** `locked` for a saved Apply, which needs `applyMu`. */
  datatype Handler = Handler(locked: bool, pc: Pc)

  /**
   The live configuration is replaced by a rename, so it is read whole. `good` and `staging`
   are the inodes behind the two names; `known` collects the configurations that were live.
   */
  datatype State = State(
    live: string, good: Option<nat>, staging: Option<nat>, inodes: seq<string>,
    mu: Option<nat>, handlers: seq<Handler>, known: set<string>)

  /** `Rewrite` is any other change of the live configuration under `applyMu`; `cfg` is what a saved Apply installs. */
  datatype Event = Confirm | SavedApply | Rewrite(cfg: string) | Move(i: nat, cfg: string)

  function Start(live: string): State { State(live, None, None, [], None, [], {live}) }

  /** Writing from the start of a file leaves the end of a longer content. */
  function Overlay(data: string, was: string): string { if |was| <= |data| then data else data + was[|data|..] }

  function Put(s: State, i: nat, pc: Pc): State
    requires i < |s.handlers|
  {
    s.(handlers := s.handlers[i := s.handlers[i].(pc := pc)])
  }

  function Install(s: State, cfg: string): State { s.(live := cfg, known := s.known + {cfg}) }

  /** Open with truncation: the file behind the name, or a new one. */
  function Open(s: State, i: nat, data: string): State
    requires i < |s.handlers|
  {
    if s.staging.Some? && s.staging.value < |s.inodes| then
      Put(s, i, HasOpened(data, s.staging.value)).(inodes := s.inodes[s.staging.value := ""])
    else Put(s, i, HasOpened(data, |s.inodes|)).(inodes := s.inodes + [""], staging := Some(|s.inodes|))
  }

  /** The rename moves whatever file the staging name leads to; without one it fails and nothing moves. */
  function Rename(s: State, i: nat): State
    requires i < |s.handlers|
  {
    var n := Put(s, i, Leaving);
    if s.staging.Some? then n.(good := s.staging, staging := None) else n
  }

  function Step(s: State, i: nat, cfg: string): State
    requires i < |s.handlers|
  {
    match s.handlers[i].pc
    case Waiting => if s.mu.Some? then s else Put(s, i, Holding).(mu := Some(i))
    case Holding => if cfg == "" then s else Install(Put(s, i, Fresh), cfg)
    case Fresh => Put(s, i, HasRead(s.live))
    case HasRead(data) => Open(s, i, data)
    case HasOpened(data, ino) =>
      if ino >= |s.inodes| then s
      else Put(s, i, HasWritten(ino)).(inodes := s.inodes[ino := Overlay(data, s.inodes[ino])])
    case HasWritten(_) => Rename(s, i)
    case Leaving => Put(s, i, Finished).(mu := if s.mu == Some(i) then None else s.mu)
    case Finished => s
  }

  function Next(s: State, e: Event): State {
    match e
    case Confirm => s.(handlers := s.handlers + [Handler(false, Fresh)])
    case SavedApply => s.(handlers := s.handlers + [Handler(true, Waiting)])
    case Rewrite(cfg) => if s.mu.Some? || cfg == "" then s else Install(s, cfg)
    case Move(i, cfg) => if i < |s.handlers| then Step(s, i, cfg) else s
  }

  function Run(s: State, es: seq<Event>): State
    decreases es
  {
    if es == [] then s else Run(Next(s, es[0]), es[1..])
  }

  lemma {:induction false} RunConcat(s: State, a: seq<Event>, b: seq<Event>)
    ensures Run(s, a + b) == Run(Run(s, a), b)
    decreases a
  {
    if a == [] {
      assert a + b == b;
    } else {
      assert (a + b)[1..] == a[1..] + b;
      RunConcat(Next(s, a[0]), a[1..], b);
    }
  }

  // ---- whole and torn baselines ----

  /** The baseline file holds something that never was the configuration. */
  predicate Torn(s: State) {
    s.good.Some? && s.good.value < |s.inodes| && s.inodes[s.good.value] !in s.known
  }

  /** The handler's commit is still to come or under way. */
  predicate Committing(h: Handler) { h.pc != Leaving && h.pc != Finished }

  predicate Inside(h: Handler) { h.locked && h.pc != Waiting && h.pc != Finished }

  predicate PcOk(s: State, pc: Pc) {
    match pc
    case HasRead(data) => data in s.known
    case HasOpened(data, ino) => data in s.known && ino < |s.inodes|
    case HasWritten(ino) => ino < |s.inodes|
    case _ => true
  }

  ghost predicate FilesOk(s: State) {
    && s.live in s.known && "" !in s.known
    && (s.good.Some? ==> s.good.value < |s.inodes|) && (s.staging.Some? ==> s.staging.value < |s.inodes|)
    && (s.staging.Some? ==> s.good != s.staging)
  }

  ghost predicate LockOk(s: State) {
    && (s.mu.Some? ==> s.mu.value < |s.handlers| && Inside(s.handlers[s.mu.value]))
    && (forall i :: 0 <= i < |s.handlers| && Inside(s.handlers[i]) ==> s.mu == Some(i))
  }

  ghost predicate HandlersOk(s: State) {
    forall i :: 0 <= i < |s.handlers| ==>
      && PcOk(s, s.handlers[i].pc)
      && (s.handlers[i].locked || (s.handlers[i].pc != Waiting && s.handlers[i].pc != Holding))
  }

  ghost predicate Inv(s: State) { FilesOk(s) && LockOk(s) && HandlersOk(s) }

  lemma StepLock(s: State, i: nat, cfg: string)
    requires LockOk(s) && HandlersOk(s) && i < |s.handlers|
    ensures LockOk(Step(s, i, cfg))
  {
    var n := Step(s, i, cfg);
    assert |n.handlers| == |s.handlers| && n.handlers[i].locked == s.handlers[i].locked;
    forall k | 0 <= k < |n.handlers| && k != i ensures n.handlers[k] == s.handlers[k] {}
  }

  lemma StepFiles(s: State, i: nat, cfg: string)
    requires FilesOk(s) && i < |s.handlers|
    ensures FilesOk(Step(s, i, cfg))
  {}

  lemma StepHandlers(s: State, i: nat, cfg: string)
    requires FilesOk(s) && HandlersOk(s) && i < |s.handlers|
    ensures HandlersOk(Step(s, i, cfg))
  {
    var n := Step(s, i, cfg);
    assert |n.inodes| >= |s.inodes| && s.known <= n.known;
    forall k | 0 <= k < |n.handlers| && k != i
      ensures PcOk(n, n.handlers[k].pc) && n.handlers[k] == s.handlers[k]
    {
      assert PcOk(s, s.handlers[k].pc);
    }
  }

  lemma NextKeeps(s: State, e: Event)
    requires Inv(s)
    ensures Inv(Next(s, e))
  {
    if e.Move? && e.i < |s.handlers| {
      StepLock(s, e.i, e.cfg);
      StepFiles(s, e.i, e.cfg);
      StepHandlers(s, e.i, e.cfg);
    } else {
      ArrivalKeeps(s, e);
    }
  }

  lemma ArrivalKeeps(s: State, e: Event)
    requires Inv(s) && (e.Move? ==> e.i >= |s.handlers|)
    ensures Inv(Next(s, e))
  {
    var n := Next(s, e);
    forall i | 0 <= i < |s.handlers| ensures n.handlers[i] == s.handlers[i] && PcOk(n, s.handlers[i].pc) {
      assert PcOk(s, s.handlers[i].pc);
    }
  }

  lemma {:induction false} RunKeeps(s: State, es: seq<Event>)
    requires Inv(s)
    ensures Inv(Run(s, es))
    decreases es
  {
    if es != [] {
      NextKeeps(s, es[0]);
      RunKeeps(Next(s, es[0]), es[1..]);
    }
  }

  // ---- one at a time ----

  /** Between opening the staging file and renaming it. */
  predicate InFlight(h: Handler) { h.pc.HasOpened? || h.pc.HasWritten? }

  ghost predicate AtMostOne(s: State) {
    forall i, j :: 0 <= i < j < |s.handlers| ==> !(InFlight(s.handlers[i]) && InFlight(s.handlers[j]))
  }

  /** The staging file is the handler's own: empty, and then its whole data. */
  predicate Clean(s: State, pc: Pc) {
    match pc
    case HasOpened(_, ino) => s.staging == Some(ino) && ino < |s.inodes| && s.inodes[ino] == ""
    case HasWritten(ino) => s.staging == Some(ino) && ino < |s.inodes| && s.inodes[ino] in s.known
    case _ => true
  }

  ghost predicate Safe(s: State) {
    Inv(s) && !Torn(s) && AtMostOne(s) && forall i :: 0 <= i < |s.handlers| ==> Clean(s, s.handlers[i].pc)
  }

  lemma OtherClean(s: State, i: nat, cfg: string, k: nat)
    requires Safe(s) && i < |s.handlers| && k < |s.handlers| && k != i && AtMostOne(Step(s, i, cfg))
    ensures Clean(Step(s, i, cfg), s.handlers[k].pc)
  {
    var n := Step(s, i, cfg);
    assert n.handlers[k] == s.handlers[k] && Clean(s, s.handlers[k].pc);
    if InFlight(s.handlers[k]) {
      assert !InFlight(s.handlers[i]) && !InFlight(n.handlers[i]);
    }
  }

  lemma OwnClean(s: State, i: nat, cfg: string)
    requires Safe(s) && i < |s.handlers|
    ensures var n := Step(s, i, cfg); Clean(n, n.handlers[i].pc) && !Torn(n)
  {
    assert Clean(s, s.handlers[i].pc) && PcOk(s, s.handlers[i].pc);
  }

  lemma NextSafe(s: State, e: Event)
    requires Safe(s) && AtMostOne(Next(s, e))
    ensures Safe(Next(s, e))
  {
    NextKeeps(s, e);
    if e.Move? && e.i < |s.handlers| {
      StepClean(s, e.i, e.cfg);
    } else {
      ArrivalSafe(s, e);
    }
  }

  lemma StepClean(s: State, i: nat, cfg: string)
    requires Safe(s) && i < |s.handlers| && AtMostOne(Step(s, i, cfg))
    ensures var n := Step(s, i, cfg); !Torn(n) && forall k :: 0 <= k < |n.handlers| ==> Clean(n, n.handlers[k].pc)
  {
    var n := Step(s, i, cfg);
    OwnClean(s, i, cfg);
    StepOthers(s, i, cfg);
    forall k | 0 <= k < |n.handlers| && k != i ensures Clean(n, n.handlers[k].pc) { OtherClean(s, i, cfg, k); }
  }

  lemma StepOthers(s: State, i: nat, cfg: string)
    requires i < |s.handlers|
    ensures var n := Step(s, i, cfg);
      |n.handlers| == |s.handlers| && forall k :: 0 <= k < |s.handlers| && k != i ==> n.handlers[k] == s.handlers[k]
  {}

  lemma ArrivalSafe(s: State, e: Event)
    requires Safe(s) && (e.Move? ==> e.i >= |s.handlers|)
    ensures var n := Next(s, e); !Torn(n) && forall i :: 0 <= i < |n.handlers| ==> Clean(n, n.handlers[i].pc)
  {
    var n := Next(s, e);
    forall i | 0 <= i < |s.handlers| ensures n.handlers[i] == s.handlers[i] && Clean(n, s.handlers[i].pc) {
      assert Clean(s, s.handlers[i].pc);
    }
  }

  /** In every prefix of the run at most one commit is under way. */
  ghost predicate OneByOne(s: State, es: seq<Event>)
    decreases es
  {
    AtMostOne(s) && (es != [] ==> OneByOne(Next(s, es[0]), es[1..]))
  }

  lemma {:induction false} SafeRun(s: State, es: seq<Event>)
    requires Safe(s) && OneByOne(s, es)
    ensures Safe(Run(s, es))
    decreases es
  {
    if es != [] {
      NextSafe(s, es[0]);
      SafeRun(Next(s, es[0]), es[1..]);
    }
  }

  /** While commits do not overlap, the baseline is a configuration that was live, at every moment. */
  lemma OneByOneIsWhole(live: string, es: seq<Event>)
    requires live != "" && OneByOne(Start(live), es)
    ensures !Torn(Run(Start(live), es))
  {
    SafeRun(Start(live), es);
  }

  /** With every commit under the lock they never overlap. */
  lemma {:induction false} LockedOneByOne(s: State, es: seq<Event>)
    requires Inv(s) && Confirm !in es && forall h :: h in s.handlers ==> h.locked
    ensures OneByOne(s, es)
    decreases es
  {
    forall i | 0 <= i < |s.handlers| && InFlight(s.handlers[i]) ensures s.mu == Some(i) {
      assert s.handlers[i] in s.handlers && Inside(s.handlers[i]);
    }
    if es != [] {
      NextKeeps(s, es[0]);
      StaysLocked(s, es[0]);
      LockedOneByOne(Next(s, es[0]), es[1..]);
    }
  }

  lemma StaysLocked(s: State, e: Event)
    requires e != Confirm && forall h :: h in s.handlers ==> h.locked
    ensures forall h :: h in Next(s, e).handlers ==> h.locked
  {
    if e.Move? && e.i < |s.handlers| { assert s.handlers[e.i] in s.handlers; }
  }

  /** So the caller rule of `copyFile` suffices: saved Applies alone never tear the baseline. */
  lemma LockedIsWhole(live: string, es: seq<Event>)
    requires live != "" && Confirm !in es
    ensures !Torn(Run(Start(live), es))
  {
    LockedOneByOne(Start(live), es);
    OneByOneIsWhole(live, es);
  }

  // ---- a confirmation beside another commit ----

  ghost predicate OnlyMoves(es: seq<Event>) { forall e :: e in es ==> e.Move? }

  /** Only the last handler still moves. */
  ghost predicate Alone(s: State, b: nat) {
    b < |s.handlers| && !s.handlers[b].locked
    && forall i :: 0 <= i < |s.handlers| && i != b ==> !Committing(s.handlers[i])
  }

  lemma AloneOne(s: State, b: nat)
    requires Alone(s, b)
    ensures AtMostOne(s)
  {}

  lemma {:induction false} AloneOneByOne(s: State, b: nat, es: seq<Event>)
    requires Alone(s, b) && OnlyMoves(es)
    ensures OneByOne(s, es)
    decreases es
  {
    AloneOne(s, b);
    if es != [] {
      assert es[0] in es && forall e :: e in es[1..] ==> e in es;
      AloneOneByOne(Next(s, es[0]), b, es[1..]);
    }
  }

  /** Moves that bring a handler past its write, or past its commit when it only waits for another. */
  function StepsToWritten(pc: Pc): nat {
    match pc case Holding => 4 case Fresh => 3 case HasRead(_) => 2 case HasOpened(_, _) => 1 case _ => 0
  }

  lemma {:induction false} DriveToWritten(s: State, a: nat) returns (es: seq<Event>)
    requires Inv(s) && a < |s.handlers| && Committing(s.handlers[a]) && s.handlers[a].pc != Waiting
    ensures OnlyMoves(es) && Inv(Run(s, es)) && |Run(s, es).handlers| == |s.handlers|
    ensures Run(s, es).handlers[a].pc.HasWritten?
    ensures forall k :: 0 <= k < |s.handlers| && k != a ==> Run(s, es).handlers[k] == s.handlers[k]
    decreases StepsToWritten(s.handlers[a].pc)
  {
    if s.handlers[a].pc.HasWritten? {
      es := [];
    } else {
      var e := Move(a, "c");
      var n := Next(s, e);
      NextKeeps(s, e);
      assert PcOk(s, s.handlers[a].pc);
      var rest := DriveToWritten(n, a);
      es := [e] + rest;
      assert es[1..] == rest;
    }
  }

  /** The confirmation empties the staging file, and the other one renames that. */
  lemma TruncatedThenRenamed(s: State, a: nat, b: nat)
    requires Inv(s) && a < |s.handlers| && b < |s.handlers| && a != b && s.handlers[a].pc.HasWritten?
    requires s.handlers[b].pc == Fresh
    ensures Torn(Run(s, [Move(b, ""), Move(b, ""), Move(a, "")]))
  {
    var s1 := Next(s, Move(b, ""));
    NextKeeps(s, Move(b, ""));
    var s2 := Next(s1, Move(b, ""));
    assert s2.staging.Some? && s2.inodes[s2.staging.value] == "" && s2.handlers[a].pc.HasWritten?;
    var s3 := Next(s2, Move(a, ""));
    assert s3.good == s2.staging && s3.inodes == s2.inodes && s3.known == s.known;
    ThreeRun(s, Move(b, ""), Move(b, ""), Move(a, ""));
  }

  lemma ThreeRun(s: State, a: Event, b: Event, c: Event)
    ensures Run(s, [a, b, c]) == Next(Next(Next(s, a), b), c)
  {
    TwoRun(Next(s, a), b, c);
    assert [a, b, c][1..] == [b, c];
  }

  lemma TwoRun(s: State, a: Event, b: Event)
    ensures Run(s, [a, b]) == Next(Next(s, a), b)
  {
    OneRun(Next(s, a), b);
    assert [a, b][1..] == [b];
  }

  lemma OneRun(s: State, a: Event)
    ensures Run(s, [a]) == Next(s, a)
  {
    assert [a][1..] == [];
  }

  /** Some committing handler can move on at once, perhaps after the lock is given up. */
  lemma Mover(s: State, a: nat) returns (es: seq<Event>, m: nat)
    requires Inv(s) && a < |s.handlers| && Committing(s.handlers[a])
    ensures OnlyMoves(es) && Inv(Run(s, es)) && |Run(s, es).handlers| == |s.handlers| && m < |s.handlers|
    ensures Committing(Run(s, es).handlers[m]) && Run(s, es).handlers[m].pc != Waiting
    ensures m == a || s.handlers[m].locked
    ensures forall k :: 0 <= k < |s.handlers| && !s.handlers[k].locked ==> Run(s, es).handlers[k] == s.handlers[k]
  {
    if s.handlers[a].pc != Waiting {
      es, m := [], a;
    } else if s.mu.Some? && Committing(s.handlers[s.mu.value]) {
      es, m := [], s.mu.value;
    } else {
      m := a;
      var take := Move(a, "");
      if s.mu.None? {
        es := [take];
        OneRun(s, take);
        NextKeeps(s, take);
        StepOthers(s, a, "");
        assert s.handlers[a].locked;
      } else {
        es := FreedThenTaken(s, a);
      }
    }
  }

  lemma FreedThenTaken(s: State, a: nat) returns (es: seq<Event>)
    requires Inv(s) && a < |s.handlers| && s.handlers[a].pc == Waiting
    requires s.mu.Some? && !Committing(s.handlers[s.mu.value])
    ensures OnlyMoves(es) && Inv(Run(s, es)) && |Run(s, es).handlers| == |s.handlers|
    ensures Run(s, es).handlers[a].pc == Holding && s.handlers[a].locked
    ensures forall k :: 0 <= k < |s.handlers| && !s.handlers[k].locked ==> Run(s, es).handlers[k] == s.handlers[k]
  {
    var free, take := Move(s.mu.value, ""), Move(a, "");
    var n := Next(s, free);
    es := [free, take];
    TwoRun(s, free, take);
    NextKeeps(s, free);
    NextKeeps(n, take);
    assert s.handlers[s.mu.value].pc == Leaving && n.mu == None && s.handlers[a].locked;
    StepOthers(s, s.mu.value, "");
    StepOthers(n, a, "");
  }

  lemma OverlapTears(s: State, a: nat) returns (es: seq<Event>)
    requires Inv(s) && a < |s.handlers| && Committing(s.handlers[a])
    ensures OnlyMoves(es) && Torn(Run(Next(s, Confirm), es))
  {
    var n, b := Next(s, Confirm), |s.handlers|;
    NextKeeps(s, Confirm);
    var first, m := Mover(n, a);
    var s1 := Run(n, first);
    var second := DriveToWritten(s1, m);
    var s2 := Run(s1, second);
    var last := [Move(b, ""), Move(b, ""), Move(m, "")];
    TruncatedThenRenamed(s2, m, b);
    RunConcat(n, first, second);
    RunConcat(n, first + second, last);
    es := first + second + last;
  }

  ghost predicate CanTear(s: State) { exists es :: OnlyMoves(es) && Torn(Run(s, es)) }

  /**
   From a whole baseline, a confirmation that arrives can leave it torn, with no further
   request, if and only if another commit is still to come or under way.
   */
  lemma ConfirmTearsIff(live: string, before: seq<Event>)
    requires live != "" && !Torn(Run(Start(live), before))
    ensures var s := Run(Start(live), before);
      CanTear(Next(s, Confirm)) <==> exists a :: 0 <= a < |s.handlers| && Committing(s.handlers[a])
  {
    var s := Run(Start(live), before);
    RunKeeps(Start(live), before);
    NextKeeps(s, Confirm);
    var n := Next(s, Confirm);
    if a :| 0 <= a < |s.handlers| && Committing(s.handlers[a]) {
      var es := OverlapTears(s, a);
    } else {
      forall es | OnlyMoves(es) ensures !Torn(Run(n, es)) {
        assert Alone(n, |s.handlers|);
        AloneOneByOne(n, |s.handlers|, es);
        SafeRun(n, es);
      }
    }
  }

  // ---- a baseline that stays torn ----

  const LONG := "long"
  const SHORT := "ab"

  /** A confirmation reads one configuration, a saved Apply installs a shorter one; both have opened the file. */
  const OPENED := [Confirm, Move(0, ""), SavedApply, Move(1, ""), Move(1, SHORT), Move(1, ""), Move(0, ""), Move(1, "")]

  /** Both write, both rename, and the Apply leaves the lock. */
  const CLOSED := [Move(0, ""), Move(1, ""), Move(0, ""), Move(1, ""), Move(0, ""), Move(1, "")]

  /** When all is over, the baseline holds the start of one configuration and the end of the other. */
  lemma TornForGood()
    ensures var s := Run(Start(LONG), OPENED + CLOSED);
      && Torn(s) && s.good == Some(0) && s.inodes == ["abng"] && s.known == {LONG, SHORT}
      && forall h :: h in s.handlers ==> h.pc == Finished
  {
    RunConcat(Start(LONG), OPENED, CLOSED);
    OpenedState();
    ClosedState(Run(Start(LONG), OPENED));
  }

  /** Both handlers have the one staging file open, empty. */
  predicate BothOpened(s: State) {
    && s.handlers == [Handler(false, HasOpened(LONG, 0)), Handler(true, HasOpened(SHORT, 0))]
    && s.staging == Some(0) && s.inodes == [""] && s.good == None && s.mu == Some(1) && s.known == {LONG, SHORT}
  }

  lemma OpenedState()
    ensures BothOpened(Run(Start(LONG), OPENED))
  {
    var e0, e1 := Move(0, ""), Move(1, "");
    var s1 := Next(Start(LONG), Confirm);
    var s2 := Next(s1, e0);
    var s3 := Next(s2, SavedApply);
    var s4 := Next(s3, e1);
    var s5 := Next(s4, Move(1, SHORT));
    var s6 := Next(s5, e1);
    var s7 := Next(s6, e0);
    var s8 := Next(s7, e1);
    assert s6.handlers == [Handler(false, HasRead(LONG)), Handler(true, HasRead(SHORT))];
    assert s6.known == {LONG, SHORT} && s6.inodes == [] && s6.staging == None;
    assert BothOpened(s8);
    ThreeRun(Start(LONG), Confirm, e0, SavedApply);
    ThreeRun(s3, e1, Move(1, SHORT), e1);
    TwoRun(s6, e0, e1);
    RunConcat(Start(LONG), [Confirm, e0, SavedApply], [e1, Move(1, SHORT), e1]);
    RunConcat(Start(LONG), [Confirm, e0, SavedApply] + [e1, Move(1, SHORT), e1], [e0, e1]);
    assert OPENED == [Confirm, e0, SavedApply] + [e1, Move(1, SHORT), e1] + [e0, e1];
  }

  lemma ClosedState(s: State)
    requires BothOpened(s)
    ensures var n := Run(s, CLOSED);
      && n.good == Some(0) && n.inodes == ["abng"] && n.known == {LONG, SHORT}
      && n.handlers == [Handler(false, Finished), Handler(true, Finished)]
  {
    var e0, e1 := Move(0, ""), Move(1, "");
    var s1 := Next(s, e0);
    assert Overlay(LONG, "") == LONG && s1.inodes == [LONG];
    var s2 := Next(s1, e1);
    assert Overlay(SHORT, LONG) == "abng" && s2.inodes == ["abng"];
    var s3 := Next(s2, e0);
    assert s3.good == Some(0) && s3.staging == None;
    var s4 := Next(s3, e1);
    var s5 := Next(s4, e0);
    var s6 := Next(s5, e1);
    assert s6.handlers == [Handler(false, Finished), Handler(true, Finished)];
    ThreeRun(s, e0, e1, e0);
    ThreeRun(s3, e1, e0, e1);
    RunConcat(s, [e0, e1, e0], [e1, e0, e1]);
    assert CLOSED == [e0, e1, e0] + [e1, e0, e1];
  }
}
