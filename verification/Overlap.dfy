/** Whether two sync runs of one job can overlap, which the hooks, the log
    directory and the reports of a run do not allow for: they can exactly if two
    control loops can be launched; otherwise the wrappers run one after the
    other, and so do their messages.
    Models worker/job.go, lines 103 and 242 to 263, and worker/worker.go, lines
    86 to 133 and 191 to 225.
 */
module Overlap {
  import opened JobTypes
  import opened Sums
  import opened Protocol
  import opened Safety
  import opened Launches
  import opened Deadlock
  import opened Halting
  import S = Schedule
  import W = Wrapper

  // ---------------------------------------------------------------------
  // Two wrappers at once
  // ---------------------------------------------------------------------

  /** A control loop whose forced run is inside its wrapper. */
  const SYNCING := Loop(Waiting, [Entered(true)], false, 1, false)

  /** Two force starts to a disabled job launch two loops, as the first has not
      stored the new state when the second command is handled. */
  lemma LaunchTwoForced(s0: Sys, ls: seq<Label>, s: Sys) returns (ls': seq<Label>, s': Sys)
    requires Interleave(s0, ls) == Some(s) && Asleep(s, [])
    ensures Interleave(s0, ls') == Some(s')
    ensures s' == WithLoops(s', [], NEW_LOOP.(pc := GotIdle(JobForceStart), forced := 1), NEW_LOOP)
    ensures s' == s.(core := s'.core, ctrl := [JobForceStart], seen := s.seen.(starts := 2), slot := S.Remove(s.slot))
  {
    hide Interleave;
    var s1, s2: Sys;
    ls', s1 := CommandLaunches(s0, ls, s, true);
    ls', s2 := BeginLate(s0, ls', s1, []);
    ls', s' := CommandLaunches(s0, ls', s2, true);
    var a := NEW_LOOP.(pc := GotIdle(JobForceStart), forced := 1);
    assert [] + [a] + [NEW_LOOP] == [] + [a, NEW_LOOP];
  }

  /** The first loop becomes ready and its run enters the wrapper. */
  lemma FirstSyncs(s0: Sys, ls: seq<Label>, s: Sys) returns (ls': seq<Label>, s': Sys)
    requires Interleave(s0, ls) == Some(s) && !s.crashed
    requires s == WithLoops(s, [], NEW_LOOP.(pc := GotIdle(JobForceStart), forced := 1), NEW_LOOP)
    ensures Interleave(s0, ls') == Some(s')
    ensures s' == WithLoops(s, [], SYNCING, NEW_LOOP).(state := StateReady)
  {
    hide Interleave;
    var got := NEW_LOOP.(pc := GotIdle(JobForceStart), forced := 1);
    var l1 := got.(pc := GotIdle(JobStart), bypass := true);
    ls' := MoveOf(s0, ls, s, [], got, NEW_LOOP, 0, Act, l1, s.state, 0);
    s' := WithLoops(s, [], l1, NEW_LOOP);
    var l2 := l1.(pc := Top);
    ls' := MoveOf(s0, ls', s', [], l1, NEW_LOOP, 0, Act, l2, StateReady, 0);
    s' := WithLoops(s, [], l2, NEW_LOOP).(state := StateReady);
    var l3 := l2.(pc := Waiting, runs := [] + [NEW_RUN]);
    ls' := MoveOf(s0, ls', s', [], l2, NEW_LOOP, 0, CheckState, l3, StateReady, 0);
    s' := WithLoops(s', [], l3, NEW_LOOP);
    ls', s' := EnterFirst(s0, ls', s', l3);
  }

  lemma EnterFirst(s0: Sys, ls: seq<Label>, s: Sys, l: Loop) returns (ls': seq<Label>, s': Sys)
    requires Interleave(s0, ls) == Some(s) && !s.crashed && l == Loop(Waiting, [NEW_RUN], true, 1, false)
    requires s == WithLoops(s, [], l, NEW_LOOP)
    ensures Interleave(s0, ls') == Some(s') && s' == WithLoops(s, [], SYNCING, NEW_LOOP)
  {
    hide Interleave;
    s' := WithLoops(s, [], SYNCING, NEW_LOOP);
    assert [NEW_RUN][0 := Entered(true)] == [Entered(true)];
    UpdateTwo([], l, NEW_LOOP, 0, SYNCING);
    ls' := Go(s0, ls, s, RunStep(0, 0, Bypass), s');
  }

  /** The second loop finds the job ready and starts a run. */
  lemma SecondSpawns(s0: Sys, ls: seq<Label>, s: Sys) returns (ls': seq<Label>, s': Sys)
    requires Interleave(s0, ls) == Some(s) && !s.crashed && s.state == StateReady && s.ctrl == [JobForceStart]
    requires s == WithLast(s, [SYNCING], NEW_LOOP)
    ensures Interleave(s0, ls') == Some(s')
    ensures s' == s.(core := s'.core, ctrl := [])
    ensures s' == WithLast(s', [SYNCING], Loop(GotWaiting(JobForceStart), [NEW_RUN], false, 1, false))
  {
    hide Interleave;
    var l1 := NEW_LOOP.(pc := Top);
    var s1 := WithLast(s, [SYNCING], l1);
    s1 := s1.(core := s1.core.(jobsDone := s.core.jobsDone + 1));
    ls' := MoveLast(s0, ls, s, [SYNCING], NEW_LOOP, CountIn, s1, l1);
    var l2 := l1.(pc := Waiting, runs := [] + [NEW_RUN]);
    var s2 := WithLast(s1, [SYNCING], l2);
    ls' := MoveLast(s0, ls', s1, [SYNCING], l1, CheckState, s2, l2);
    var l3 := l2.(pc := GotWaiting(JobForceStart), forced := 1);
    s' := WithLast(s2, [SYNCING], l3).(ctrl := []);
    assert s2.ctrl[1..] == [] && l3.runs == [NEW_RUN];
    ls' := MoveLast(s0, ls', s2, [SYNCING], l2, RecvCtrl, s', l3);
  }

  /** It obeys its force start, and its run enters the wrapper too. */
  lemma SecondSyncs(s0: Sys, ls: seq<Label>, s: Sys) returns (ls': seq<Label>, s': Sys)
    requires Interleave(s0, ls) == Some(s) && !s.crashed && s.state == StateReady
    requires s == WithLast(s, [SYNCING], Loop(GotWaiting(JobForceStart), [NEW_RUN], false, 1, false))
    ensures Interleave(s0, ls') == Some(s') && s' == WithLast(s, [SYNCING], SYNCING)
  {
    hide Interleave;
    var l0 := Loop(GotWaiting(JobForceStart), [NEW_RUN], false, 1, false);
    var l1 := l0.(pc := GotWaiting(JobStart), bypass := true);
    var s1 := WithLast(s, [SYNCING], l1);
    ls' := MoveLast(s0, ls, s, [SYNCING], l0, Act, s1, l1);
    var l2 := l1.(pc := Waiting);
    var s2 := WithLast(s, [SYNCING], l2);
    ls' := MoveLast(s0, ls', s1, [SYNCING], l1, Act, s2, l2);
    ls', s' := EnterLate(s0, ls', s2, [SYNCING]);
  }

  /** Both loops of a disabled job that got two force starts sync at once. */
  lemma TwoSyncing(cap: nat, retries: int, stime: int) returns (ls: seq<Label>, s: Sys)
    ensures Interleave(Boot(cap, retries, Disabled, stime), ls) == Some(s)
    ensures s.core.loops == [SYNCING, SYNCING] && s.core.retries == retries && s.state == StateReady
    ensures s.ctrl == [] && s.mgr == [] && s.seen.starts == 2
    ensures s.seen.injects == 0 && s.seen.halts == 0 && !s.crashed && !s.exit && !s.closing
    ensures s.handler == Free && (s.sched == SelectMsg || s.sched == Popped)
  {
    hide Interleave;
    var s0 := Boot(cap, retries, Disabled, stime);
    ls, s := PutToSleep(cap, retries, Disabled, stime);
    ls, s := LaunchTwoForced(s0, ls, s);
    ls, s := FirstSyncs(s0, ls, s);
    assert [] + [SYNCING, NEW_LOOP] == [SYNCING] + [NEW_LOOP];
    ls, s := SecondSpawns(s0, ls, s);
    ls, s := SecondSyncs(s0, ls, s);
    assert [SYNCING] + [SYNCING] == [SYNCING, SYNCING];
    SameConfig(s0, ls);
  }

  lemma TwoActive()
    ensures Sum([SYNCING, SYNCING], ActiveIn) == 2
  {
    assert [Entered(true)][..0] == [] && [SYNCING, SYNCING][..1] == [SYNCING] && [SYNCING][..0] == [];
    assert Sum([Entered(true)], ActiveRun) == 1;
    assert ActiveIn(SYNCING) == 1;
    assert Sum([SYNCING, SYNCING], ActiveIn) == Sum([SYNCING], ActiveIn) + 1;
  }

  // ---------------------------------------------------------------------
  // One wrapper at a time
  // ---------------------------------------------------------------------

  /** What a caller can check: the job is never told to disable itself, and it
      starts up enabled or gets at most one start or restart command. */
  predicate Solo(status: SyncStatus, ls: seq<Label>, starts: nat) {
    FrontStep(Inject(JobDisable)) !in ls && (status != Disabled || starts <= 1)
  }

  lemma SoloLoop(cap: nat, retries: int, status: SyncStatus, stime: int, ls: seq<Label>)
    requires Interleave(Boot(cap, retries, status, stime), ls).Some?
    requires Solo(status, ls, Interleave(Boot(cap, retries, status, stime), ls).value.seen.starts)
    ensures |Interleave(Boot(cap, retries, status, stime), ls).value.core.loops| <= 1
  {
    hide Interleave;
    if status != Disabled {
      OneLoop(cap, retries, status, stime, ls);
    } else {
      LaunchBound(cap, retries, status, stime, ls);
    }
  }

  /** At most one wrapper is active per loop. */
  lemma {:induction false} ActiveAtMost(loops: seq<Loop>)
    requires forall i | 0 <= i < |loops| :: ActiveIn(loops[i]) <= 1
    ensures Sum(loops, ActiveIn) <= |loops|
  {
    if loops != [] {
      ActiveAtMost(loops[..|loops| - 1]);
    }
  }

  ghost predicate Overlaps(cap: nat, retries: int, status: SyncStatus, stime: int, starts: nat, ls: seq<Label>) {
    var s := Interleave(Boot(cap, retries, status, stime), ls);
    && s.Some? && s.value.seen.starts <= starts && FrontStep(Inject(JobDisable)) !in ls
    && 2 <= Sum(s.value.core.loops, ActiveIn)
  }

  /** Exactly when two wrappers of one job can be active at once, for every
      capacity and without an injected jobDisable: two start or restart commands
      suffice if and only if the job starts up disabled. */
  lemma OverlapIff(cap: nat, retries: int, status: SyncStatus, stime: int, starts: nat)
    ensures (exists ls :: Overlaps(cap, retries, status, stime, starts, ls)) <==> status == Disabled && 2 <= starts
  {
    if status == Disabled && 2 <= starts {
      var ls, s := TwoSyncing(cap, retries, stime);
      TwoActive();
      NoInjects(Boot(cap, retries, status, stime), ls, JobDisable);
      assert Overlaps(cap, retries, status, stime, starts, ls);
    } else {
      forall ls: seq<Label> ensures !Overlaps(cap, retries, status, stime, starts, ls) {
        if Overlaps(cap, retries, status, stime, starts, ls) {
          SoloLoop(cap, retries, status, stime, ls);
          ConcurrencyLimit(cap, retries, status, stime, ls);
          ActiveAtMost(Interleave(Boot(cap, retries, status, stime), ls).value.core.loops);
        }
      }
    }
  }

  // ---------------------------------------------------------------------
  // Runs in turn
  // ---------------------------------------------------------------------

  predicate IsWrap(lbl: Label) {
    lbl.RunStep? && lbl.runMove.Wrap?
  }

  /** Only the newest run of a loop can be inside its wrapper. */
  lemma WrapIsLast(s: Sys, lbl: Label)
    requires Inv(s) && IsWrap(lbl) && Next(s, lbl).Some?
    ensures lbl.i < |s.core.loops| && lbl.j == |s.core.loops[lbl.i].runs| - 1
  {
    StepInRange(s, lbl);
    assert LoopOk(s.core.retries, s.core.loops[lbl.i]);
    assert Active(s.core.loops[lbl.i].runs[lbl.j]);
  }

  /** Loops keep their runs. */
  lemma RunsStay(s: Sys, lbl: Label)
    requires Next(s, lbl).Some?
    ensures |s.core.loops| <= |Next(s, lbl).value.core.loops|
    ensures forall i | 0 <= i < |s.core.loops| ::
              |s.core.loops[i].runs| <= |Next(s, lbl).value.core.loops[i].runs|
  {
    hide StepLoop, StepRun, StepStart, StepSched, HandlerReady, NextHandler, Queued;
    match lbl
    case LoopStep(i, move) => LoopStepFrame(s, i, move); LoopRuns(s.core.loops[i], move, s.state, s.ctrl);
    case RunStep(i, j, move) => RunStepFrame(s, i, j, move);
    case StartStep => StartFrame(s);
    case SchedStep(move) => SchedFrame(s, move);
    case FrontStep(move) =>
  }

  /** A loop adds a run or changes its newest one, without touching what it has
      reported. */
  lemma LoopRuns(l: Loop, move: LoopMove, state: JobState, ctrl: seq<Ctrl>)
    requires LoopAfter(l, move, state, ctrl).Some?
    ensures var l' := LoopAfter(l, move, state, ctrl).value.0;
            || l'.runs == l.runs + [NEW_RUN]
            || (|l'.runs| == |l.runs| && forall j | 0 <= j < |l.runs| :: l'.runs[j].trace == l.runs[j].trace)
  {
  }

  /** Wrapper steps of the only loop: an earlier one is of the same run or of an
      older one. */
  ghost predicate InTurn(ls: seq<Label>, runs: nat) {
    && (forall n | 0 <= n < |ls| && IsWrap(ls[n]) :: ls[n].i == 0 && ls[n].j < runs)
    && forall m, n | 0 <= m < n < |ls| && IsWrap(ls[m]) && IsWrap(ls[n]) :: ls[m].j <= ls[n].j
  }

  function RunCount(s: Sys): nat {
    if s.core.loops == [] then 0 else |s.core.loops[0].runs|
  }

  lemma {:induction false} StepsInTurn(s: Sys, ls: seq<Label>)
    requires Inv(s) && Interleave(s, ls).Some? && |Interleave(s, ls).value.core.loops| <= 1
    ensures InTurn(ls, RunCount(Interleave(s, ls).value))
  {
    if ls != [] {
      var before, lbl := ls[..|ls| - 1], ls[|ls| - 1];
      assert ls == before + [lbl];
      var t := Interleave(s, before).value;
      hide InTurn, Next, Inv;
      InterleaveInv(s, before);
      NextRuns(t, lbl);
      hide Interleave;
      StepsInTurn(s, before);
      TurnAppend(before, lbl, RunCount(t), RunCount(Interleave(s, ls).value));
    }
  }

  lemma NextRuns(s: Sys, lbl: Label)
    requires Inv(s) && Next(s, lbl).Some? && |Next(s, lbl).value.core.loops| <= 1
    ensures |s.core.loops| <= 1 && RunCount(s) <= RunCount(Next(s, lbl).value)
    ensures IsWrap(lbl) ==> lbl.i == 0 && lbl.j == RunCount(s) - 1
  {
    RunsStay(s, lbl);
    if IsWrap(lbl) {
      WrapIsLast(s, lbl);
    }
    hide Next, Inv;
  }

  lemma TurnAppend(ls: seq<Label>, lbl: Label, runs: nat, runs': nat)
    requires InTurn(ls, runs) && runs <= runs' && (IsWrap(lbl) ==> lbl.i == 0 && lbl.j == runs - 1)
    ensures InTurn(ls + [lbl], runs')
  {
    hide IsWrap;
  }

  /** Wrappers do not interleave: if the job is never told to disable itself, and
      starts up enabled or gets at most one start or restart command, then in
      every interleaving the wrapper steps, and with them all hook calls, are
      those of one run after the other. */
  lemma RunsInTurn(cap: nat, retries: int, status: SyncStatus, stime: int, ls: seq<Label>)
    requires Interleave(Boot(cap, retries, status, stime), ls).Some?
    requires Solo(status, ls, Interleave(Boot(cap, retries, status, stime), ls).value.seen.starts)
    ensures forall m, n | 0 <= m < n < |ls| && IsWrap(ls[m]) && IsWrap(ls[n]) ::
              ls[m].i == ls[n].i == 0 && ls[m].j <= ls[n].j
  {
    BootInv(cap, retries, status, stime);
    SoloLoop(cap, retries, status, stime, ls);
    StepsInTurn(Boot(cap, retries, status, stime), ls);
  }

  // ---------------------------------------------------------------------
  // Messages in turn
  // ---------------------------------------------------------------------

  /** What a step puts on the manager channel. */
  function SentBy(s: Sys, lbl: Label): seq<JobMessage> {
    if IsWrap(lbl) && lbl.i < |s.core.loops| && lbl.j < |s.core.loops[lbl.i].runs|
       && s.core.loops[lbl.i].runs[lbl.j].phase.Wrapping?
    then W.Emitted(s.core.loops[lbl.i].runs[lbl.j].phase.pc)
    else []
  }

  /** What a step of `runSchedule` takes off it. */
  function TakenBy(s: Sys, lbl: Label): seq<JobMessage> {
    if lbl.SchedStep? && (lbl.schedMove.RecvMsg? || lbl.schedMove.Drain?) && s.mgr != [] then [s.mgr[0]] else []
  }

  function Sent(s: Sys, ls: seq<Label>): seq<JobMessage>
    requires Interleave(s, ls).Some?
  {
    if ls == [] then []
    else
      var before := ls[..|ls| - 1];
      Sent(s, before) + SentBy(Interleave(s, before).value, ls[|ls| - 1])
  }

  function Taken(s: Sys, ls: seq<Label>): seq<JobMessage>
    requires Interleave(s, ls).Some?
  {
    if ls == [] then []
    else
      var before := ls[..|ls| - 1];
      Taken(s, before) + TakenBy(Interleave(s, before).value, ls[|ls| - 1])
  }

  /** The reports of a sequence of runs, one after the other. */
  function Said(runs: seq<Run>): seq<JobMessage> {
    if runs == [] then [] else Said(runs[..|runs| - 1]) + runs[|runs| - 1].trace
  }

  lemma {:induction false} SaidSame(a: seq<Run>, b: seq<Run>)
    requires |a| == |b| && forall j | 0 <= j < |a| :: a[j].trace == b[j].trace
    ensures Said(a) == Said(b)
  {
    if a != [] {
      SaidSame(a[..|a| - 1], b[..|b| - 1]);
    }
  }

  lemma SaidAppend(runs: seq<Run>, r: Run)
    ensures Said(runs + [r]) == Said(runs) + r.trace
  {
    assert (runs + [r])[..|runs|] == runs;
  }

  function SaidBy(s: Sys): seq<JobMessage> {
    if s.core.loops == [] then [] else Said(s.core.loops[0].runs)
  }

  /** The channel is first in, first out. */
  lemma Channel(s: Sys, lbl: Label)
    requires Next(s, lbl).Some?
    ensures s.mgr + SentBy(s, lbl) == TakenBy(s, lbl) + Next(s, lbl).value.mgr
  {
    match lbl
    case RunStep(i, j, move) => RunChannel(s, i, j, move);
    case SchedStep(move) => SchedChannel(s, move);
    case LoopStep(i, move) => LoopStepFrame(s, i, move); hide StepLoop;
    case StartStep => StartFrame(s); hide StepStart;
    case FrontStep(move) => hide HandlerReady, NextHandler, Queued;
  }

  lemma RunChannel(s: Sys, i: nat, j: nat, move: RunMove)
    requires StepRun(s, i, j, move).Some?
    ensures s.mgr + SentBy(s, RunStep(i, j, move)) == StepRun(s, i, j, move).value.mgr
  {
    hide RunAfter;
  }

  lemma SchedChannel(s: Sys, move: SchedMove)
    requires StepSched(s, move).Some?
    ensures s.mgr == TakenBy(s, SchedStep(move)) + StepSched(s, move).value.mgr
  {
  }

  lemma {:induction false} ChannelHistory(s: Sys, ls: seq<Label>)
    requires Interleave(s, ls).Some?
    ensures s.mgr + Sent(s, ls) == Taken(s, ls) + Interleave(s, ls).value.mgr
  {
    if ls != [] {
      var before, lbl := ls[..|ls| - 1], ls[|ls| - 1];
      ChannelHistory(s, before);
      var t := Interleave(s, before).value;
      Channel(t, lbl);
      hide Next, SentBy, TakenBy;
      Regroup(s.mgr, Sent(s, before), SentBy(t, lbl), Taken(s, before), t.mgr, TakenBy(t, lbl),
              Interleave(s, ls).value.mgr);
    }
  }

  lemma Regroup(m0: seq<JobMessage>, a: seq<JobMessage>, x: seq<JobMessage>, b: seq<JobMessage>,
                m1: seq<JobMessage>, y: seq<JobMessage>, m2: seq<JobMessage>)
    requires m0 + a == b + m1 && m1 + x == y + m2
    ensures m0 + (a + x) == b + y + m2
  {
    assert m0 + (a + x) == (m0 + a) + x;
    assert b + m1 + x == b + (m1 + x);
    assert b + (y + m2) == b + y + m2;
  }

  /** A step of the only loop's goroutines adds what it sends to what its runs
      have said. */
  lemma SaidStep(s: Sys, lbl: Label)
    requires Inv(s) && Next(s, lbl).Some? && |Next(s, lbl).value.core.loops| <= 1
    ensures SaidBy(Next(s, lbl).value) == SaidBy(s) + SentBy(s, lbl)
  {
    StepInRange(s, lbl);
    hide StepRun, Inv, SaidBy, SentBy;
    if lbl.RunStep? {
      RunSaid(s, lbl.i, lbl.j, lbl.runMove);
    } else {
      OtherSaid(s, lbl);
      NoWrapNothing(s, lbl);
    }
  }

  lemma OtherSaid(s: Sys, lbl: Label)
    requires !lbl.RunStep? && Next(s, lbl).Some? && |Next(s, lbl).value.core.loops| <= 1
    ensures SaidBy(Next(s, lbl).value) == SaidBy(s)
  {
    assert Said([]) == [];
    hide Said, StepLoop, StepStart, StepSched, StepFront;
    match lbl
    case LoopStep(i, move) => LoopStepFrame(s, i, move); LoopSaid(s, i, move);
    case StartStep => StartFrame(s);
    case SchedStep(move) => SchedFrame(s, move);
    case FrontStep(move) => FrontSaid(s, move);
  }

  lemma FrontSaid(s: Sys, move: FrontMove)
    requires StepFront(s, move).Some? && |StepFront(s, move).value.core.loops| <= 1
    ensures SaidBy(StepFront(s, move).value) == SaidBy(s)
  {
    assert Said([]) == [];
    hide Said, HandlerReady, NextHandler, Queued;
  }

  lemma LoopSaid(s: Sys, i: nat, move: LoopMove)
    requires StepLoop(s, i, move).Some? && |s.core.loops| <= 1
    ensures SaidBy(StepLoop(s, i, move).value) == SaidBy(s)
  {
    LoopStepFrame(s, i, move);
    hide StepLoop, Said;
    var runs, runs' := s.core.loops[0].runs, StepLoop(s, i, move).value.core.loops[0].runs;
    LoopRuns(s.core.loops[0], move, s.state, s.ctrl);
    hide LoopAfter;
    if runs' == runs + [NEW_RUN] {
      SaidAppend(runs, NEW_RUN);
    } else {
      SaidSame(runs, runs');
    }
  }

  /** The traces after a run's step. */
  lemma RunTraces(s: Sys, i: nat, j: nat, move: RunMove)
    requires StepRun(s, i, j, move).Some?
    ensures var s' := StepRun(s, i, j, move).value;
            && i < |s.core.loops| && j < |s.core.loops[i].runs|
            && i < |s'.core.loops| && j < |s'.core.loops[i].runs|
            && s'.core.loops[i].runs[j].trace == s.core.loops[i].runs[j].trace + SentBy(s, RunStep(i, j, move))
  {
    var r := s.core.loops[i].runs[j];
    assert r.trace + [] == r.trace;
  }

  lemma RunSaid(s: Sys, i: nat, j: nat, move: RunMove)
    requires Inv(s) && Next(s, RunStep(i, j, move)).Some? && |s.core.loops| <= 1
    ensures SaidBy(StepRun(s, i, j, move).value) == SaidBy(s) + SentBy(s, RunStep(i, j, move))
  {
    var lbl := RunStep(i, j, move);
    RunStepFrame(s, i, j, move);
    RunTraces(s, i, j, move);
    if IsWrap(lbl) {
      WrapIsLast(s, lbl);
    } else {
      NoWrapNothing(s, lbl);
    }
    hide StepRun, Inv, SentBy, Said;
    var runs, runs' := s.core.loops[0].runs, StepRun(s, i, j, move).value.core.loops[0].runs;
    if IsWrap(lbl) {
      SaidMore(runs, runs', SentBy(s, lbl));
    } else {
      SaidSame(runs, runs');
    }
  }

  /** The newest run says more. */
  lemma SaidMore(runs: seq<Run>, runs': seq<Run>, more: seq<JobMessage>)
    requires runs != [] && |runs'| == |runs|
    requires runs'[..|runs| - 1] == runs[..|runs| - 1] && runs'[|runs| - 1].trace == runs[|runs| - 1].trace + more
    ensures Said(runs') == Said(runs) + more
  {
  }

  lemma NoWrapNothing(s: Sys, lbl: Label)
    requires !IsWrap(lbl)
    ensures SentBy(s, lbl) == [] && forall said: seq<JobMessage> :: said + SentBy(s, lbl) == said
  {
  }

  lemma {:induction false} SaidHistory(s: Sys, ls: seq<Label>)
    requires Inv(s) && s.core.loops == [] && Interleave(s, ls).Some? && |Interleave(s, ls).value.core.loops| <= 1
    ensures Sent(s, ls) == SaidBy(Interleave(s, ls).value)
  {
    if ls != [] {
      var before, lbl := ls[..|ls| - 1], ls[|ls| - 1];
      StepInRange(Interleave(s, before).value, lbl);
      InterleaveInv(s, before);
      hide Next, SentBy, Inv, Said;
      SaidHistory(s, before);
      SaidStep(Interleave(s, before).value, lbl);
    }
  }

  /** Messages in turn: if the job is never told to disable itself, and starts up
      enabled or gets at most one start or restart command, then what
      `runSchedule` has received, followed by what is still in the manager
      channel, is the concatenation of the runs' reports in the order the runs
      were spawned; and each run but the newest has reported a whole word of the
      message language, or nothing because it was killed first. */
  lemma MessagesInTurn(cap: nat, retries: int, status: SyncStatus, stime: int, ls: seq<Label>)
    requires Interleave(Boot(cap, retries, status, stime), ls).Some?
    requires Solo(status, ls, Interleave(Boot(cap, retries, status, stime), ls).value.seen.starts)
    ensures var s := Interleave(Boot(cap, retries, status, stime), ls).value;
            && Taken(Boot(cap, retries, status, stime), ls) + s.mgr == SaidBy(s)
            && (s.core.loops != [] ==>
                  var runs := s.core.loops[0].runs;
                  forall j | 0 <= j < |runs| - 1 :: runs[j].trace == [] || W.InLanguage(retries, runs[j].trace))
  {
    var s0 := Boot(cap, retries, status, stime);
    var s := Interleave(s0, ls).value;
    BootInv(cap, retries, status, stime);
    SoloLoop(cap, retries, status, stime, ls);
    SaidHistory(s0, ls);
    ChannelHistory(s0, ls);
    InterleaveInv(s0, ls);
    SameConfig(s0, ls);
    hide Interleave, Sent, Taken, Said;
    assert [] + Sent(s0, ls) == Sent(s0, ls);
    if s.core.loops != [] {
      assert LoopOk(s.core.retries, s.core.loops[0]);
      forall j | 0 <= j < |s.core.loops[0].runs| - 1
        ensures s.core.loops[0].runs[j].trace == [] || W.InLanguage(retries, s.core.loops[0].runs[j].trace)
      {
        assert Quiet(s.core.loops[0].runs[j]) && RunOk(retries, s.core.loops[0].runs[j]);
      }
    }
  }
}
