/** Whether a sync can run after `Halt`. The wait group does not see a control
    loop that is launched but has not run its first statement; `Halt` is safe as
    long as such a loop finds the halt command first, and exactly then.
    Models worker/worker.go, lines 63 to 74 and 163 to 185, and worker/job.go,
    lines 95 to 101 and 256 to 328.
 */
module Halting {
  import opened JobTypes
  import opened Sums
  import opened Protocol
  import opened Safety
  import opened Deadlock

  /** `Halt` has passed its wait. */
  predicate Passed(s: Sys) {
    s.exit || s.closing
  }

  /** The next command a loop will receive is to halt. */
  predicate HaltNext(s: Sys) {
    s.ctrl != [] && s.ctrl[0] == JobHalt
  }

  /** Where the only loop may stand once `Halt` has passed. */
  predicate Harmless(s: Sys, pc: LoopPc) {
    || pc == Returned
    || pc == GotIdle(JobHalt)
    || ((pc.Launched? || pc.Top? || pc.Idle?) && s.state != StateReady && HaltNext(s))
  }

  /** Before `Halt` passes, and before there is a loop it could wait for, it has
      left its command in the control channel. */
  predicate HaltOk(s: Sys) {
    && (s.core.loops == [] && (Passed(s) || s.handler == HaltWait) ==> HaltNext(s))
    && (|s.core.loops| == 1 ==>
          var l := s.core.loops[0];
          && (l.pc == Launched ==> l.runs == [] && s.state != StateReady)
          && (l.pc == Launched && s.handler == HaltWait ==> HaltNext(s))
          && (Passed(s) ==> Harmless(s, l.pc)))
  }

  /** What is known besides: the invariant, and that the two actions worker.go
      never sends are nowhere. */
  ghost predicate Calls(s: Sys) {
    Inv(s) && Spared(s, JobDisable)
  }

  lemma LoopHalt(s: Sys, i: nat, move: LoopMove)
    requires |s.core.loops| == 1 && i == 0 && HaltOk(s) && StepLoop(s, i, move).Some?
    ensures HaltOk(StepLoop(s, i, move).value)
  {
    LoopStepFrame(s, i, move);
    LoopPlace(s, move);
    hide StepLoop;
  }

  /** A loop that has only the halt command ahead of it stays harmless. */
  lemma LoopPlace(s: Sys, move: LoopMove)
    requires |s.core.loops| == 1 && StepLoop(s, 0, move).Some?
    ensures var s' := StepLoop(s, 0, move).value;
            && |s'.core.loops| == 1 && s'.core.loops[0].pc != Launched
            && (Harmless(s, s.core.loops[0].pc) ==> Harmless(s', s'.core.loops[0].pc))
  {
    if move.RecvDone? {
      DonePlace(s.core.loops[0]);
    }
    hide LoopAfterDone;
  }

  lemma DonePlace(l: Loop)
    requires LoopAfterDone(l).Some?
    ensures (l.pc.Waiting? || l.pc.Awaiting?) && LoopAfterDone(l).value.pc != Launched
  {
  }

  lemma RunHalt(s: Sys, i: nat, j: nat, move: RunMove)
    requires HaltOk(s) && StepRun(s, i, j, move).Some?
    ensures HaltOk(StepRun(s, i, j, move).value)
  {
    RunStepFrame(s, i, j, move);
    hide StepRun;
  }

  lemma StartHalt(s: Sys)
    requires StartupOk(s) && NeverDisabled(s) && HaltOk(s) && StepStart(s).Some?
    ensures HaltOk(StepStart(s).value)
  {
    StartFrame(s);
    hide StepStart;
  }

  lemma SchedHalt(s: Sys, move: SchedMove)
    requires HaltOk(s) && StepSched(s, move).Some?
    ensures HaltOk(StepSched(s, move).value)
  {
    SchedFrame(s, move);
    hide StepSched;
  }

  /** When the wait group lets `Halt` pass, the loop has returned or not begun. */
  lemma WaitPasses(k: Core)
    requires CoreInv(k) && |k.loops| == 1 && k.jobsDone == 0
    ensures k.loops[0].pc == Launched || k.loops[0].pc == Returned
  {
    assert k.loops[..0] == [];
    assert Sum(k.loops, Counted) == Sum(k.loops[..0], Counted) + Counted(k.loops[0]);
  }

  lemma HandlerPlace(s: Sys)
    requires StepHandler(s).Some? && s.state != StateDisabled
    ensures var s' := StepHandler(s).value;
            && (s'.handler == HaltWait ==> s.handler == HaltSend && s.ctrl == [])
            && (s'.closing && !s.closing ==> s.handler == HaltWait && s.core.jobsDone == 0)
            && (s'.ctrl != s.ctrl ==> s.ctrl == [])
  {
  }

  lemma HandlerHalt(s: Sys)
    requires Calls(s) && HaltOk(s) && StepHandler(s).Some?
    ensures HaltOk(StepHandler(s).value)
  {
    HandlerPlace(s);
    if |s.core.loops| == 1 && s.core.jobsDone == 0 {
      WaitPasses(s.core);
    }
    hide StepHandler, CoreInv, Absent;
  }

  lemma FrontHalt(s: Sys, move: FrontMove)
    requires Calls(s) && HaltOk(s) && StepFront(s, move).Some?
    ensures HaltOk(StepFront(s, move).value)
  {
    hide Calls, StepHandler;
    if move.Advance? {
      HandlerHalt(s);
    }
  }

  lemma NextHalt(s: Sys, lbl: Label)
    requires Calls(s) && HaltOk(s) && Next(s, lbl).Some?
    ensures HaltOk(Next(s, lbl).value)
  {
    StepInRange(s, lbl);
    assert StartupOk(s) && NeverDisabled(s);
    hide Calls, HaltOk, StartupOk, StepLoop, StepRun, StepStart, StepSched, StepFront;
    match lbl
    case LoopStep(i, move) => LoopHalt(s, i, move);
    case RunStep(i, j, move) => RunHalt(s, i, j, move);
    case StartStep => StartHalt(s);
    case SchedStep(move) => SchedHalt(s, move);
    case FrontStep(move) => FrontHalt(s, move);
  }

  lemma {:induction false} InterleaveHalt(cap: nat, retries: int, status: SyncStatus, stime: int, ls: seq<Label>)
    requires status != Disabled && FrontStep(Inject(JobDisable)) !in ls
    requires Interleave(Boot(cap, retries, status, stime), ls).Some?
    ensures HaltOk(Interleave(Boot(cap, retries, status, stime), ls).value)
  {
    if ls != [] {
      var s0, before := Boot(cap, retries, status, stime), ls[..|ls| - 1];
      InterleaveHalt(cap, retries, status, stime, before);
      BootInv(cap, retries, status, stime);
      InterleaveInv(s0, before);
      InterleaveSpared(s0, before, JobDisable);
      hide Inv, Spared, HaltOk, Next;
      NextHalt(Interleave(s0, before).value, ls[|ls| - 1]);
    }
  }

  /** A job that starts up enabled and is sent only the commands worker.go sends
      has no sync running once `Halt` has passed its wait, and none ever after,
      however early the halt came and whatever else arrives. */
  lemma HaltIsFinal(cap: nat, retries: int, status: SyncStatus, stime: int, ls: seq<Label>)
    requires status != Disabled
    requires FrontStep(Inject(JobDisable)) !in ls && FrontStep(Inject(JobPing)) !in ls
    requires Interleave(Boot(cap, retries, status, stime), ls).Some?
    requires Passed(Interleave(Boot(cap, retries, status, stime), ls).value)
    ensures Sum(Interleave(Boot(cap, retries, status, stime), ls).value.core.loops, ActiveIn) == 0
  {
    hide Interleave;
    var s := Interleave(Boot(cap, retries, status, stime), ls).value;
    InterleaveHalt(cap, retries, status, stime, ls);
    OneLoop(cap, retries, status, stime, ls);
    assert |s.core.loops| == 1 ==> AtRest(s.core.loops[0].pc);
    hide HaltOk;
    AllAtRest(cap, retries, status, stime, ls);
  }

  lemma AllAtRest(cap: nat, retries: int, status: SyncStatus, stime: int, ls: seq<Label>)
    requires FrontStep(Inject(JobPing)) !in ls && Interleave(Boot(cap, retries, status, stime), ls).Some?
    requires forall l | l in Interleave(Boot(cap, retries, status, stime), ls).value.core.loops :: AtRest(l.pc)
    ensures Sum(Interleave(Boot(cap, retries, status, stime), ls).value.core.loops, ActiveIn) == 0
  {
    Quiescence(cap, retries, status, stime, ls);
    hide Interleave, ActiveIn;
    SumZero(Interleave(Boot(cap, retries, status, stime), ls).value.core.loops, ActiveIn);
  }

  // ---------------------------------------------------------------------
  // The race
  // ---------------------------------------------------------------------

  function WithLast(s: Sys, gone: seq<Loop>, l: Loop): Sys {
    s.(core := s.core.(loops := gone + [l]))
  }

  /** One step of the last loop. */
  lemma MoveLast(s0: Sys, ls: seq<Label>, s: Sys, gone: seq<Loop>, a: Loop, move: LoopMove, s': Sys, l: Loop)
    returns (ls': seq<Label>)
    requires Interleave(s0, ls) == Some(s) && s == WithLast(s, gone, a) && !s.crashed
    requires s' == WithLast(s', gone, l)
    requires StepLoop(s, |gone|, move) == Some(s'.(core := s'.core.(loops := s.core.loops[|gone| := l])))
    ensures Interleave(s0, ls') == Some(s')
  {
    assert (gone + [a])[|gone| := l] == gone + [l];
    ls' := Go(s0, ls, s, LoopStep(|gone|, move), s');
  }

  /** A `Halt` that finds the job disabled and the wait group at zero. */
  lemma PassHalt(s0: Sys, ls: seq<Label>, s: Sys) returns (ls': seq<Label>, s': Sys)
    requires Interleave(s0, ls) == Some(s) && s.state == StateDisabled && s.core.jobsDone == 0
    requires s.handler == Free && !SchedLocks(s.sched) && !s.closing && !s.exit && !s.crashed
    ensures Interleave(s0, ls') == Some(s') && s' == s.(exit := true, seen := s.seen.(halts := s.seen.halts + 1))
  {
    hide Interleave;
    var s1 := s.(handler := HaltCheck, seen := s.seen.(halts := s.seen.halts + 1));
    ls' := Go(s0, ls, s, FrontStep(AcceptHalt), s1);
    var s2 := s1.(handler := HaltWait);
    ls' := Go(s0, ls', s1, FrontStep(Advance), s2);
    var s3 := s2.(handler := Free, closing := true);
    ls' := Go(s0, ls', s2, FrontStep(Advance), s3);
    s' := s.(exit := true, seen := s.seen.(halts := s.seen.halts + 1));
    ls' := Go(s0, ls', s3, FrontStep(CloseExit), s');
  }

  /** The last loop begins after all, finds the job disabled, and takes the
      force start queued for it. */
  lemma BeginLate(s0: Sys, ls: seq<Label>, s: Sys, gone: seq<Loop>) returns (ls': seq<Label>, s': Sys)
    requires Interleave(s0, ls) == Some(s) && s == WithLast(s, gone, NEW_LOOP) && s.ctrl == [JobForceStart]
    requires s.state == StateDisabled && !s.crashed
    ensures Interleave(s0, ls') == Some(s')
    ensures s' == WithLast(s', gone, NEW_LOOP.(pc := GotIdle(JobForceStart), forced := 1))
    ensures s' == s.(core := s'.core, ctrl := [])
  {
    hide Interleave;
    var top, idle := NEW_LOOP.(pc := Top), NEW_LOOP.(pc := Idle);
    var s1 := WithLast(s, gone, top);
    s1 := s1.(core := s1.core.(jobsDone := s.core.jobsDone + 1));
    ls' := MoveLast(s0, ls, s, gone, NEW_LOOP, CountIn, s1, top);
    var s2 := WithLast(s1, gone, idle);
    ls' := MoveLast(s0, ls', s1, gone, top, CheckState, s2, idle);
    var got := NEW_LOOP.(pc := GotIdle(JobForceStart), forced := 1);
    s' := WithLast(s2, gone, got).(ctrl := []);
    assert s2.ctrl[1..] == [];
    ls' := MoveLast(s0, ls', s2, gone, idle, RecvCtrl, s', got);
  }

  /** It becomes ready and starts a run. */
  lemma SpawnLate(s0: Sys, ls: seq<Label>, s: Sys, gone: seq<Loop>) returns (ls': seq<Label>, s': Sys)
    requires Interleave(s0, ls) == Some(s) && !s.crashed
    requires s == WithLast(s, gone, NEW_LOOP.(pc := GotIdle(JobForceStart), forced := 1))
    ensures Interleave(s0, ls') == Some(s')
    ensures s' == WithLast(s, gone, Loop(Waiting, [NEW_RUN], true, 1, false)).(state := StateReady)
  {
    hide Interleave;
    var got := NEW_LOOP.(pc := GotIdle(JobForceStart), forced := 1);
    var l1 := got.(pc := GotIdle(JobStart), bypass := true);
    var s1 := WithLast(s, gone, l1);
    ls' := MoveLast(s0, ls, s, gone, got, Act, s1, l1);
    var l2 := l1.(pc := Top);
    var s2 := WithLast(s1, gone, l2).(state := StateReady);
    ls' := MoveLast(s0, ls', s1, gone, l1, Act, s2, l2);
    var l3 := l2.(pc := Waiting, runs := [] + [NEW_RUN]);
    s' := WithLast(s2, gone, l3);
    ls' := MoveLast(s0, ls', s2, gone, l2, CheckState, s', l3);
    assert l3.runs == [NEW_RUN];
  }

  /** The forced run enters its wrapper. */
  lemma EnterLate(s0: Sys, ls: seq<Label>, s: Sys, gone: seq<Loop>) returns (ls': seq<Label>, s': Sys)
    requires Interleave(s0, ls) == Some(s) && !s.crashed
    requires s == WithLast(s, gone, Loop(Waiting, [NEW_RUN], true, 1, false))
    ensures Interleave(s0, ls') == Some(s')
    ensures s' == WithLast(s, gone, Loop(Waiting, [Entered(true)], false, 1, false))
  {
    hide Interleave;
    var a, l := Loop(Waiting, [NEW_RUN], true, 1, false), Loop(Waiting, [Entered(true)], false, 1, false);
    s' := WithLast(s, gone, l);
    assert [NEW_RUN][0 := Entered(true)] == [Entered(true)];
    assert (gone + [a])[|gone| := l] == gone + [l];
    ls' := Go(s0, ls, s, RunStep(|gone|, 0, Bypass), s');
  }

  /** A disabled job gets a force start, and before the loop it launches has
      begun, `Halt` finds the job disabled and the wait group at zero: it passes,
      and the sync starts afterwards. */
  lemma HaltRace(cap: nat, retries: int, status: SyncStatus, stime: int) returns (ls: seq<Label>, s: Sys)
    ensures Interleave(Boot(cap, retries, status, stime), ls) == Some(s)
    ensures s.exit && 0 < Sum(s.core.loops, ActiveIn) && (status == Disabled ==> s.seen.injects == 0)
  {
    var s0 := Boot(cap, retries, status, stime);
    ls, s := PutToSleep(cap, retries, status, stime);
    var gone := s.core.loops;
    NobodyCounted(cap, retries, status, stime, ls);
    hide Interleave;
    ls, s := CommandLaunches(s0, ls, s, true);
    ls, s := PassHalt(s0, ls, s);
    ls, s := BeginLate(s0, ls, s, gone);
    ls, s := SpawnLate(s0, ls, s, gone);
    ls, s := EnterLate(s0, ls, s, gone);
    LastActive(gone);
  }

  lemma LastActive(gone: seq<Loop>)
    ensures 0 < Sum(gone + [Loop(Waiting, [Entered(true)], false, 1, false)], ActiveIn)
  {
    var l := Loop(Waiting, [Entered(true)], false, 1, false);
    SumAppend(gone, l, ActiveIn);
    assert [Entered(true)][..0] == [];
    assert Sum([Entered(true)], ActiveRun) == 1;
  }

  /** Nobody is in the wait group of a sleeping job, and nobody has halted it. */
  lemma NobodyCounted(cap: nat, retries: int, status: SyncStatus, stime: int, ls: seq<Label>)
    requires Interleave(Boot(cap, retries, status, stime), ls).Some?
    requires var s := Interleave(Boot(cap, retries, status, stime), ls).value; Asleep(s, s.core.loops)
    ensures Interleave(Boot(cap, retries, status, stime), ls).value.core.jobsDone == 0
  {
    BootInv(cap, retries, status, stime);
    InterleaveInv(Boot(cap, retries, status, stime), ls);
    var k := Interleave(Boot(cap, retries, status, stime), ls).value.core;
    SumZero(k.loops, Counted);
  }

  /** An interleaving, without the two actions worker.go never sends unless
      `injects`, in which a sync is running after `Halt`. */
  ghost predicate Races(cap: nat, retries: int, status: SyncStatus, stime: int, injects: bool, ls: seq<Label>) {
    var s := Interleave(Boot(cap, retries, status, stime), ls);
    && s.Some? && s.value.exit && 0 < Sum(s.value.core.loops, ActiveIn)
    && (injects || (FrontStep(Inject(JobDisable)) !in ls && FrontStep(Inject(JobPing)) !in ls))
  }

  /** Exactly when a sync can run after `Halt`: if and only if the job starts up
      disabled, or is sent an action worker.go never sends. */
  lemma HaltRaceIff(cap: nat, retries: int, status: SyncStatus, stime: int, injects: bool)
    ensures (exists ls :: Races(cap, retries, status, stime, injects, ls)) <==> status == Disabled || injects
  {
    if status == Disabled || injects {
      var ls, s := HaltRace(cap, retries, status, stime);
      if status == Disabled {
        NoInjects(Boot(cap, retries, status, stime), ls, JobDisable);
        NoInjects(Boot(cap, retries, status, stime), ls, JobPing);
      }
      assert Races(cap, retries, status, stime, injects, ls);
    } else {
      forall ls: seq<Label> ensures !Races(cap, retries, status, stime, injects, ls) {
        if Races(cap, retries, status, stime, injects, ls) {
          HaltIsFinal(cap, retries, status, stime, ls);
        }
      }
    }
  }
}
