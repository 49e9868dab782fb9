/** Where the worker leaves safe ground, as concrete interleavings, and exactly
    when it can: two tokens make `AddJob` meet an occupied cell, and a second
    control loop makes a token nobody granted.
    Models worker/worker.go, lines 63 to 74, 86 to 133 and 163 to 225.
 */
module Deadlock {
  import opened JobTypes
  import opened Wrapper
  import opened Protocol
  import opened Activation
  import opened Forced
  import opened Sums
  import S = Schedule

  /** Extends an interleaving by one step. */
  lemma Go(s0: Sys, ls: seq<Label>, s: Sys, lbl: Label, s': Sys) returns (ls': seq<Label>)
    requires Interleave(s0, ls) == Some(s) && Next(s, lbl) == Some(s')
    ensures Interleave(s0, ls') == Some(s')
  {
    ls' := ls + [lbl];
    assert ls'[..|ls|] == ls;
  }

  /** A worker whose only loop is at rest between runs and whose other parts
      are where they wait for work. */
  ghost predicate Calm(s: Sys, pc: LoopPc) {
    && |s.core.loops| == 1
    && s.core.loops[0].pc == pc
    && s.core.sem == 0
    && !s.stuck && !s.crashed && s.handler == Free && s.sched == SelectMsg
  }

  function StartCmd(force: bool): Ctrl {
    if force then JobForceStart else JobStart
  }

  function SeenStart(seen: Seen, early: bool): Seen {
    seen.(starts := seen.starts + 1, early := seen.early + if early then 1 else 0)
  }

  function WithLoop(s: Sys, l: Loop): Sys {
    s.(core := s.core.(loops := [l]))
  }

  function WithRun(s: Sys, l: Loop, r: Run): Sys {
    WithLoop(s, l.(runs := l.runs + [r]))
  }

  function WithSem(s: Sys, sem: nat): Sys {
    s.(core := s.core.(sem := sem))
  }

  /** One step of the current run, outside its wrapper. */
  lemma MoveRun(s0: Sys, ls: seq<Label>, s: Sys, l: Loop, r: Run, move: RunMove, r': Run) returns (ls': seq<Label>)
    requires Interleave(s0, ls) == Some(s) && s == WithRun(s, l, r) && !s.crashed
    requires RunAfter(r, move, l.bypass) == Some(r')
    requires (move.Acquire? ==> s.core.sem < s.core.cap) && (move.Release? ==> 0 < s.core.sem)
    ensures var sem := s.core.sem + (if move.Acquire? then 1 else 0) - (if move.Release? then 1 else 0);
            Interleave(s0, ls') == Some(WithSem(WithRun(s, l.(bypass := l.bypass && !move.Bypass?), r'), sem))
  {
    var sem := s.core.sem + (if move.Acquire? then 1 else 0) - (if move.Release? then 1 else 0);
    var l' := l.(bypass := l.bypass && !move.Bypass?);
    var s' := WithSem(WithRun(s, l', r'), sem);
    assert (l.runs + [r])[|l.runs| := r'] == l.runs + [r'];
    assert [l.(runs := l.runs + [r])][0 := l'.(runs := l.runs + [r'])] == s'.core.loops;
    ls' := Go(s0, ls, s, RunStep(0, |l.runs|, move), s');
  }

  /** One step of the current run inside its wrapper. */
  lemma MoveWrap(s0: Sys, ls: seq<Label>, s: Sys, l: Loop, r: Run, choice: Choice, r': Run) returns (ls': seq<Label>)
    requires Interleave(s0, ls) == Some(s) && s == WithRun(s, l, r) && !s.crashed
    requires WrapAfter(s, r, choice) == Some(r') && r'.phase.pc != Crashed
    ensures Interleave(s0, ls') == Some(WithRun(s, l, r').(mgr := s.mgr + Emitted(r.phase.pc)))
  {
    var s' := WithRun(s, l, r').(mgr := s.mgr + Emitted(r.phase.pc));
    assert (l.runs + [r])[|l.runs| := r'] == l.runs + [r'];
    assert [l.(runs := l.runs + [r])][0 := l.(runs := l.runs + [r'])] == s'.core.loops;
    ls' := Go(s0, ls, s, RunStep(0, |l.runs|, Wrap(choice)), s');
  }

  /** One step of the only loop. */
  lemma MoveLoop(s0: Sys, ls: seq<Label>, s: Sys, move: LoopMove, s': Sys) returns (ls': seq<Label>)
    requires Interleave(s0, ls) == Some(s) && |s.core.loops| == |s'.core.loops| == 1 && !s.crashed
    requires StepLoop(s, 0, move).Some?
    requires var t := StepLoop(s, 0, move).value;
             && |t.core.loops| == 1 && t.core.loops[0] == s'.core.loops[0]
             && t == s'.(core := s'.core.(loops := t.core.loops))
    ensures Interleave(s0, ls') == Some(s')
  {
    assert StepLoop(s, 0, move).value.core.loops == s'.core.loops;
    ls' := Go(s0, ls, s, LoopStep(0, move), s');
  }

  /** A loop that has taken a start command; a force start also fills its
      bypass channel. */
  function Started(l: Loop, force: bool): Loop {
    l.(pc := Top, bypass := l.bypass || force, forced := l.forced + if force then 1 else 0)
  }

  /** An idle loop takes a start command and becomes ready. */
  lemma TakeStart(s0: Sys, ls: seq<Label>, s: Sys, force: bool) returns (ls': seq<Label>, s': Sys)
    requires Interleave(s0, ls) == Some(s) && Calm(s, Idle) && s.ctrl == [StartCmd(force)]
    ensures Interleave(s0, ls') == Some(s') && Calm(s', Top)
    ensures s' == WithLoop(s, Started(s.core.loops[0], force)).(state := StateReady, ctrl := [])
  {
    hide Interleave;
    var l := s.core.loops[0];
    var l1 := l.(pc := GotIdle(StartCmd(force)), forced := l.forced + if force then 1 else 0);
    var s1 := WithLoop(s, l1).(ctrl := []);
    ls' := MoveLoop(s0, ls, s, RecvCtrl, s1);
    if force {
      var s2 := WithLoop(s1, l1.(pc := GotIdle(JobStart), bypass := true));
      ls' := MoveLoop(s0, ls', s1, Act, s2);
      s1 := s2;
    }
    s' := WithLoop(s1, Started(l, force)).(state := StateReady);
    ls' := MoveLoop(s0, ls', s1, Act, s');
  }

  /** A run past its select, with a slot or forced. */
  function Entered(force: bool): Run {
    NEW_RUN.(phase := Wrapping(START), slot := !force, bypassed := force)
  }

  function Announced(force: bool): Run {
    Entered(force).(phase := Wrapping(PreJob), trace := [PRE_MSG])
  }

  function Failing(force: bool): Run {
    Announced(force).(phase := Wrapping(Sending(HOOK_FAILURE, Done)))
  }

  function Reported(force: bool): Run {
    Entered(force).(phase := Wrapping(Done), trace := [PRE_MSG, HOOK_FAILURE])
  }

  /** A run whose first pre-job hook failed. */
  function FailedRun(force: bool): Run {
    Reported(force).(phase := Over, slot := false, closes := 1)
  }

  /** The wrapper's first three steps when the first pre-job hook fails. */
  lemma FailingSteps(s: Sys, force: bool)
    requires |s.mgr| < MGR_CAP
    ensures WrapAfter(s, Entered(force), Proceed) == Some(Announced(force))
    ensures WrapAfter(s, Announced(force), HookErr) == Some(Failing(force))
    ensures WrapAfter(s, Failing(force), Proceed) == Some(Reported(force))
  {
    assert [] + [PRE_MSG] == [PRE_MSG] && [PRE_MSG] + [] == [PRE_MSG];
    assert [PRE_MSG] + [HOOK_FAILURE] == [PRE_MSG, HOOK_FAILURE];
  }

  /** The run takes a slot or the bypass token. */
  lemma EnterWrapper(s0: Sys, ls: seq<Label>, s: Sys, l: Loop, force: bool) returns (ls': seq<Label>)
    requires Interleave(s0, ls) == Some(s) && s.core.sem == 0 && !s.crashed && s == WithRun(s, l, NEW_RUN)
    requires if force then l.bypass else 0 < s.core.cap
    ensures Interleave(s0, ls') ==
            Some(WithSem(WithRun(s, l.(bypass := l.bypass && !force), Entered(force)), if force then 0 else 1))
  {
    hide Interleave;
    ls' := MoveRun(s0, ls, s, l, NEW_RUN, if force then Bypass else Acquire, Entered(force));
  }

  /** The run announces itself and reports the failing hook. */
  lemma Report(s0: Sys, ls: seq<Label>, s: Sys, l: Loop, force: bool) returns (ls': seq<Label>)
    requires Interleave(s0, ls) == Some(s) && !s.crashed && |s.mgr| <= MGR_CAP - 2
    requires s == WithRun(s, l, Entered(force))
    ensures Interleave(s0, ls') == Some(WithRun(s, l, Reported(force)).(mgr := s.mgr + [PRE_MSG, HOOK_FAILURE]))
  {
    hide Interleave, WrapAfter;
    FailingSteps(s, force);
    ls' := MoveWrap(s0, ls, s, l, Entered(force), Proceed, Announced(force));
    var s2 := WithRun(s, l, Announced(force)).(mgr := s.mgr + [PRE_MSG]);
    FailingSteps(s2, force);
    ls' := MoveWrap(s0, ls', s2, l, Announced(force), HookErr, Failing(force));
    var s3 := WithRun(s, l, Failing(force)).(mgr := s.mgr + [PRE_MSG]);
    assert s2.mgr + [] == s3.mgr;
    FailingSteps(s3, force);
    ls' := MoveWrap(s0, ls', s3, l, Failing(force), Proceed, Reported(force));
    assert s.mgr + [PRE_MSG] + [HOOK_FAILURE] == s.mgr + [PRE_MSG, HOOK_FAILURE];
  }

  /** The run signals and gives its slot back, if it has one. */
  lemma EndRun(s0: Sys, ls: seq<Label>, s: Sys, l: Loop, force: bool) returns (ls': seq<Label>)
    requires Interleave(s0, ls) == Some(s) && s.core.sem == (if force then 0 else 1) && !s.crashed
    requires s == WithRun(s, l, Reported(force))
    ensures Interleave(s0, ls') == Some(WithSem(WithRun(s, l, FailedRun(force)), 0))
  {
    hide Interleave;
    var closed := Reported(force).(phase := if force then Over else Releasing, closes := 1);
    ls' := MoveRun(s0, ls, s, l, Reported(force), CloseDone, closed);
    if !force {
      ls' := MoveRun(s0, ls', WithRun(s, l, closed), l, closed, Release, FailedRun(force));
    }
  }

  /** The run ends and the loop goes idle. */
  lemma Finish(s0: Sys, ls: seq<Label>, s: Sys, l: Loop, force: bool) returns (ls': seq<Label>)
    requires Interleave(s0, ls) == Some(s) && s.core.sem == (if force then 0 else 1) && !s.crashed && l.pc == Waiting
    requires s == WithRun(s, l, Reported(force))
    ensures Interleave(s0, ls') == Some(WithSem(WithRun(s, l.(pc := Idle), FailedRun(force)), 0))
  {
    hide Interleave;
    ls' := EndRun(s0, ls, s, l, force);
    var s2 := WithSem(WithRun(s, l, FailedRun(force)), 0);
    var s3 := WithRun(s2, l.(pc := Idle), FailedRun(force));
    assert (l.runs + [FailedRun(force)])[|l.runs| := FailedRun(force)] == l.runs + [FailedRun(force)];
    ls' := MoveLoop(s0, ls', s2, RecvDone, s3);
  }

  /** A ready loop runs a sync whose pre-job hook fails, up to the point where
      the run holds no slot and the loop has seen it end. */
  lemma RunAndFail(s0: Sys, ls: seq<Label>, s: Sys, force: bool) returns (ls': seq<Label>, s': Sys)
    requires Interleave(s0, ls) == Some(s) && Calm(s, Top) && s.state == StateReady && |s.mgr| <= MGR_CAP - 2
    requires if force then s.core.loops[0].bypass else 0 < s.core.cap
    ensures Interleave(s0, ls') == Some(s') && Calm(s', Idle)
    ensures s' == WithLoop(s, s'.core.loops[0]).(mgr := s.mgr + [PRE_MSG, HOOK_FAILURE])
  {
    hide Interleave;
    var l := s.core.loops[0].(pc := Waiting);
    var s1 := WithRun(s, l, NEW_RUN);
    ls' := MoveLoop(s0, ls, s, CheckState, s1);
    ls' := EnterWrapper(s0, ls', s1, l, force);
    l := l.(bypass := l.bypass && !force);
    var s2 := WithSem(WithRun(s, l, Entered(force)), if force then 0 else 1);
    ls' := Report(s0, ls', s2, l, force);
    var s3 := WithRun(s2, l, Reported(force)).(mgr := s.mgr + [PRE_MSG, HOOK_FAILURE]);
    ls' := Finish(s0, ls', s3, l, force);
    s' := WithSem(WithRun(s3, l.(pc := Idle), FailedRun(force)), 0);
  }

  /** The handler accepts a start command, flushes the cell and sends it on. */
  lemma SendCommand(s0: Sys, ls: seq<Label>, s: Sys, force: bool) returns (ls': seq<Label>, s': Sys)
    requires Interleave(s0, ls) == Some(s) && Calm(s, Idle) && s.ctrl == [] && s.state != StateDisabled
    ensures Interleave(s0, ls') == Some(s')
    ensures s' == s.(slot := S.Remove(s.slot), ctrl := [StartCmd(force)], seen := SeenStart(s.seen, false))
  {
    hide Interleave;
    var cmd := CmdStart(force);
    var s1 := s.(handler := Flush(cmd), seen := SeenStart(s.seen, false));
    ls' := Go(s0, ls, s, FrontStep(Accept(cmd)), s1);
    var s2 := s1.(handler := Check(cmd), slot := S.Remove(s.slot));
    ls' := Go(s0, ls', s1, FrontStep(Advance), s2);
    var s3 := s2.(handler := Send(StartCmd(force)));
    ls' := Go(s0, ls', s2, FrontStep(Advance), s3);
    s' := s3.(handler := Free, ctrl := [StartCmd(force)]);
    assert s3.ctrl + [StartCmd(force)] == [StartCmd(force)];
    ls' := Go(s0, ls', s3, FrontStep(Advance), s');
  }

  /** A due schedule cell is popped and turned into a start command. */
  lemma PopStart(s0: Sys, ls: seq<Label>, s: Sys) returns (ls': seq<Label>, s': Sys)
    requires Interleave(s0, ls) == Some(s) && Calm(s, Idle) && s.ctrl == [] && s.slot.sched
    ensures Interleave(s0, ls') == Some(s')
    ensures s' == s.(slot := S.Remove(s.slot), ctrl := [JobStart])
  {
    hide Interleave;
    var now := s.slot.nextScheduled * S.SECOND + 1;
    var s1 := s.(slot := S.Remove(s.slot), sched := Popped);
    ls' := Go(s0, ls, s, SchedStep(Tick(now)), s1);
    s' := s1.(ctrl := [JobStart], sched := SelectMsg);
    assert s1.ctrl + [JobStart] == [JobStart];
    ls' := Go(s0, ls', s1, SchedStep(SendStart), s');
  }

  /** The scheduler takes one message of a ready job up to its `AddJob`. */
  lemma TakeMsg(s0: Sys, ls: seq<Label>, s: Sys) returns (ls': seq<Label>, s': Sys)
    requires Interleave(s0, ls) == Some(s) && Calm(s, Idle) && s.mgr != [] && s.state == StateReady
    ensures Interleave(s0, ls') == Some(s')
    ensures s' == s.(mgr := s.mgr[1..], sched := Accepted(s.mgr[0]))
  {
    hide Interleave;
    var s1 := s.(mgr := s.mgr[1..], sched := GotMsg(s.mgr[0]));
    ls' := Go(s0, ls, s, SchedStep(RecvMsg), s1);
    s' := s1.(sched := Accepted(s.mgr[0]));
    ls' := Go(s0, ls', s1, SchedStep(LoadState), s');
  }

  /** The scheduler handles the two messages of a failed run: an empty cell is
      filled, an occupied one deadlocks it. */
  lemma HandleReport(s0: Sys, ls: seq<Label>, s: Sys, rest: seq<JobMessage>) returns (ls': seq<Label>, s': Sys)
    requires Interleave(s0, ls) == Some(s) && Calm(s, Idle) && s.state == StateReady
    requires s.mgr == [PRE_MSG, HOOK_FAILURE] + rest
    ensures Interleave(s0, ls') == Some(s')
    ensures s' == if s.slot.sched then s.(mgr := rest, sched := Accepted(HOOK_FAILURE), stuck := true)
                  else s.(mgr := rest, slot := S.Slot(true, 0))
  {
    hide Interleave;
    var s1: Sys;
    ls', s1 := TakeMsg(s0, ls, s);
    var s2 := s.(mgr := [HOOK_FAILURE] + rest);
    assert s.mgr[1..] == s2.mgr;
    ls' := Go(s0, ls', s1, SchedStep(AddJob(0)), s2);
    var s3: Sys;
    ls', s3 := TakeMsg(s0, ls', s2);
    assert s2.mgr[1..] == rest;
    s' := if s.slot.sched then s3.(stuck := true) else s3.(slot := S.Slot(true, 0), sched := SelectMsg);
    ls' := Go(s0, ls', s3, SchedStep(AddJob(0)), s');
  }

  /** The worker after an undisturbed start-up block. */
  function Up(s: Sys, status: SyncStatus, stime: int): Sys {
    var loops := if status == Disabled then [] else [NEW_LOOP];
    s.(core := s.core.(loops := loops), state := InitialState(status), sched := SelectMsg,
       slot := if BootGrant(status) == 1 then S.Slot(true, stime) else s.slot)
  }

  lemma StartUp(s0: Sys, ls: seq<Label>, s: Sys, status: SyncStatus, stime: int) returns (ls': seq<Label>)
    requires Interleave(s0, ls) == Some(s) && s.sched == AwaitLock(status, stime) && s.core.loops == []
    requires s.handler == Free && !s.slot.sched && !s.stuck && !s.crashed
    ensures Interleave(s0, ls') == Some(Up(s, status, stime))
  {
    hide Interleave;
    var s1 := s.(sched := Fetched(status, stime));
    ls' := Go(s0, ls, s, StartStep, s1);
    var s2 := s1.(state := InitialState(status),
                  sched := if status == Disabled then Unlocking else Launching(status, stime));
    ls' := Go(s0, ls', s1, StartStep, s2);
    if status == Disabled {
      ls' := Go(s0, ls', s2, StartStep, Up(s, status, stime));
    } else {
      ls' := StartLoop(s0, ls', s, s2, status, stime);
    }
  }

  lemma StartLoop(s0: Sys, ls: seq<Label>, s: Sys, s2: Sys, status: SyncStatus, stime: int) returns (ls': seq<Label>)
    requires Interleave(s0, ls) == Some(s2) && s.core.loops == [] && status != Disabled
    requires s2 == s.(state := InitialState(status), sched := Launching(status, stime))
    requires !s.slot.sched && !s.stuck && !s.crashed
    ensures Interleave(s0, ls') == Some(Up(s, status, stime))
  {
    hide Interleave;
    assert [] + [NEW_LOOP] == [NEW_LOOP];
    var s3 := WithLoop(s2, NEW_LOOP).(sched := if status == Paused then Unlocking else Scheduling(stime));
    ls' := Go(s0, ls, s2, StartStep, s3);
    var s4 := Up(s, status, stime).(sched := Unlocking);
    if status != Paused {
      ls' := Go(s0, ls', s3, StartStep, s4);
    }
    ls' := Go(s0, ls', s4, StartStep, Up(s, status, stime));
  }

  /** The loop launched at start-up, or by the first command to a disabled job,
      idles with a start command on its way: the scheduled one of start-up,
      unless a forced one is needed. */
  lemma FirstStart(cap: nat, retries: int, status: SyncStatus, stime: int, force: bool) returns (ls: seq<Label>, s: Sys)
    ensures Interleave(Boot(cap, retries, status, stime), ls) == Some(s)
    ensures Calm(s, Idle) && s.ctrl == [StartCmd(force)] && s.mgr == [] && !s.slot.sched && s.core.cap == cap
    ensures s.seen.early == 0 && s.seen.starts == if force then 1 else 1 - BootGrant(status)
  {
    var s0 := Boot(cap, retries, status, stime);
    assert Interleave(s0, []) == Some(s0);
    hide Interleave;
    if status == Disabled {
      ls, s := LaunchDisabled(cap, retries, stime, force);
      ls, s := Settle(s0, ls, s);
    } else {
      ls := StartUp(s0, [], s0, status, stime);
      ls, s := Settle(s0, ls, Up(s0, status, stime));
      if status == Paused || force {
        ls, s := SendCommand(s0, ls, s, force);
      } else {
        ls, s := PopStart(s0, ls, s);
      }
    }
  }

  /** A new loop counts itself in, finds the job not ready, and idles. */
  lemma Settle(s0: Sys, ls: seq<Label>, s: Sys) returns (ls': seq<Label>, s': Sys)
    requires Interleave(s0, ls) == Some(s) && Calm(s, Launched) && s.state != StateReady
    ensures Interleave(s0, ls') == Some(s') && Calm(s', Idle)
    ensures s' == WithLoop(s, s.core.loops[0].(pc := Idle)).(core := s'.core)
    ensures s'.core.loops == [s.core.loops[0].(pc := Idle)]
    ensures s'.core.retries == s.core.retries && s'.core.cap == s.core.cap
  {
    hide Interleave;
    var l := s.core.loops[0];
    var s1 := WithLoop(s, l.(pc := Top));
    s1 := s1.(core := s1.core.(jobsDone := s.core.jobsDone + 1));
    ls' := MoveLoop(s0, ls, s, CountIn, s1);
    s' := WithLoop(s1, l.(pc := Idle));
    ls' := MoveLoop(s0, ls', s1, CheckState, s');
  }

  lemma LaunchDisabled(cap: nat, retries: int, stime: int, force: bool) returns (ls: seq<Label>, s: Sys)
    ensures Interleave(Boot(cap, retries, Disabled, stime), ls) == Some(s)
    ensures Calm(s, Launched) && s.ctrl == [StartCmd(force)] && s.mgr == [] && !s.slot.sched
    ensures s.seen.starts == 1 && s.seen.early == s.seen.stops == s.seen.injects == 0
    ensures !s.exit && !s.closing && s.core.jobsDone == 0
    ensures s.state == StateDisabled && s.core.loops == [NEW_LOOP] && s.core.retries == retries && s.core.cap == cap
  {
    var s0 := Boot(cap, retries, Disabled, stime);
    assert Interleave(s0, []) == Some(s0);
    hide Interleave;
    ls := StartUp(s0, [], s0, Disabled, stime);
    ls, s := CommandLaunches(s0, ls, Up(s0, Disabled, stime), force);
    assert [] + [NEW_LOOP] == [NEW_LOOP];
  }

  /** The handler passes a start command on and, the job being disabled,
      launches a loop first. */
  lemma CommandLaunches(s0: Sys, ls: seq<Label>, s: Sys, force: bool) returns (ls': seq<Label>, s': Sys)
    requires Interleave(s0, ls) == Some(s) && s.ctrl == [] && s.state == StateDisabled
    requires s.handler == Free && (s.sched == SelectMsg || s.sched == Popped) && !s.crashed && !s.stuck
    ensures Interleave(s0, ls') == Some(s')
    ensures s' == s.(core := Launch(s.core), ctrl := [StartCmd(force)],
                     seen := SeenStart(s.seen, false), slot := S.Remove(s.slot))
  {
    hide Interleave;
    var cmd := CmdStart(force);
    var s1 := s.(handler := Flush(cmd), seen := SeenStart(s.seen, false));
    ls' := Go(s0, ls, s, FrontStep(Accept(cmd)), s1);
    var s2 := s1.(handler := Check(cmd), slot := S.Remove(s.slot));
    ls' := Go(s0, ls', s1, FrontStep(Advance), s2);
    var s3 := s2.(core := Launch(s.core), handler := Send(StartCmd(force)));
    ls' := Go(s0, ls', s2, FrontStep(Advance), s3);
    s' := s3.(handler := Free, ctrl := [StartCmd(force)]);
    assert s3.ctrl + [StartCmd(force)] == [StartCmd(force)];
    ls' := Go(s0, ls', s3, FrontStep(Advance), s');
  }

  /** A start command handled before start-up: its flush comes too early, and it
      waits in the control channel for the loop start-up launches. */
  lemma EarlyCommand(s0: Sys, ls: seq<Label>, s: Sys, force: bool) returns (ls': seq<Label>, s': Sys)
    requires Interleave(s0, ls) == Some(s) && s.sched.AwaitLock? && s.handler == Free && s.state == StateNone
    requires s.ctrl == [] && !s.stuck && !s.crashed
    ensures Interleave(s0, ls') == Some(s')
    ensures s' == s.(slot := S.Remove(s.slot), ctrl := [StartCmd(force)], seen := SeenStart(s.seen, true))
  {
    hide Interleave;
    var cmd := CmdStart(force);
    var s1 := s.(handler := Flush(cmd), seen := SeenStart(s.seen, true));
    ls' := Go(s0, ls, s, FrontStep(Accept(cmd)), s1);
    var s2 := s1.(handler := Check(cmd), slot := S.Remove(s.slot));
    ls' := Go(s0, ls', s1, FrontStep(Advance), s2);
    var s3 := s2.(handler := Send(StartCmd(force)));
    ls' := Go(s0, ls', s2, FrontStep(Advance), s3);
    s' := s3.(handler := Free, ctrl := [StartCmd(force)]);
    assert s3.ctrl + [StartCmd(force)] == [StartCmd(force)];
    ls' := Go(s0, ls', s3, FrontStep(Advance), s');
  }

  lemma EarlyStart(cap: nat, retries: int, status: SyncStatus, stime: int) returns (ls: seq<Label>, s: Sys)
    requires BootGrant(status) == 1
    ensures Interleave(Boot(cap, retries, status, stime), ls) == Some(s)
    ensures Calm(s, Idle) && s.ctrl == [JobForceStart] && s.mgr == [] && s.slot.sched && s.seen.starts == 1
  {
    var s0 := Boot(cap, retries, status, stime);
    assert Interleave(s0, []) == Some(s0);
    hide Interleave;
    ls, s := EarlyCommand(s0, [], s0, true);
    ls := StartUp(s0, ls, s, status, stime);
    ls, s := Settle(s0, ls, Up(s, status, stime));
  }

  /** One force start before start-up suffices if start-up schedules: the forced
      run asks to be scheduled while the cell still holds start-up's entry. */
  lemma EarlyDeadlock(cap: nat, retries: int, status: SyncStatus, stime: int) returns (ls: seq<Label>, s: Sys)
    requires BootGrant(status) == 1
    ensures Interleave(Boot(cap, retries, status, stime), ls) == Some(s)
    ensures s.stuck && |s.core.loops| == 1 && s.seen.starts == 1
  {
    hide Interleave;
    var s0 := Boot(cap, retries, status, stime);
    ls, s := EarlyStart(cap, retries, status, stime);
    ls, s := TakeStart(s0, ls, s, true);
    ls, s := RunAndFail(s0, ls, s, true);
    assert s.mgr == [PRE_MSG, HOOK_FAILURE] + [];
    ls, s := HandleReport(s0, ls, s, []);
  }

  /** What start-up grants towards a deadlock: its schedule starts a run only if
      there is a semaphore slot to be had, and is still in the cell when a
      forced run asks only if the force start came before start-up. */
  function StartupGrant(cap: nat, status: SyncStatus, early: bool): nat {
    if cap == 0 && !early then 0 else BootGrant(status)
  }

  /** Two tokens suffice: the first run's request to be scheduled is still
      queued when a start command, having flushed the empty cell, starts a
      second run; both ask, and the second `AddJob` meets the first's entry.
      Without semaphore slots both runs have to be forced, or one before
      start-up. */
  lemma TwoTokensDeadlock(cap: nat, retries: int, status: SyncStatus, stime: int, early: bool)
    returns (ls: seq<Label>, s: Sys)
    ensures Interleave(Boot(cap, retries, status, stime), ls) == Some(s)
    ensures s.stuck && |s.core.loops| == 1 && StartupGrant(cap, status, early) + s.seen.starts == 2
    ensures early || s.seen.early == 0
  {
    hide Interleave;
    var s0, force := Boot(cap, retries, status, stime), cap == 0;
    if force && early && BootGrant(status) == 1 {
      ls, s := EarlyDeadlock(cap, retries, status, stime);
    } else {
      ls, s := FirstStart(cap, retries, status, stime, force);
      ls, s := TakeStart(s0, ls, s, force);
      ls, s := RunAndFail(s0, ls, s, force);
      ls, s := SendCommand(s0, ls, s, force);
      ls, s := TakeStart(s0, ls, s, force);
      ls, s := RunAndFail(s0, ls, s, force);
      assert s.mgr == [PRE_MSG, HOOK_FAILURE] + [PRE_MSG, HOOK_FAILURE];
      ls, s := HandleReport(s0, ls, s, [PRE_MSG, HOOK_FAILURE]);
      assert s.mgr == [PRE_MSG, HOOK_FAILURE] + [];
      ls, s := HandleReport(s0, ls, s, []);
    }
  }

  /** An interleaving with at most `starts` accepted start or restart commands,
      none of them before start-up unless `early`, that ends in the deadlock. */
  ghost predicate Deadlocks(cap: nat, retries: int, status: SyncStatus, stime: int, starts: nat, early: bool,
                            ls: seq<Label>) {
    var s := Interleave(Boot(cap, retries, status, stime), ls);
    s.Some? && s.value.stuck && s.value.seen.starts <= starts && (early || s.value.seen.early == 0)
  }

  /** Exactly when the worker can deadlock on its own schedule: at most `starts`
      accepted start or restart commands suffice if and only if they and
      start-up grant two tokens, whatever else arrives or is injected. */
  lemma DeadlockIff(cap: nat, retries: int, status: SyncStatus, stime: int, starts: nat, early: bool)
    ensures (exists ls :: Deadlocks(cap, retries, status, stime, starts, early, ls))
            <==> 2 <= StartupGrant(cap, status, early) + starts
  {
    if 2 <= StartupGrant(cap, status, early) + starts {
      var ls, s := TwoTokensDeadlock(cap, retries, status, stime, early);
      assert Deadlocks(cap, retries, status, stime, starts, early, ls);
    } else {
      forall ls: seq<Label> ensures !Deadlocks(cap, retries, status, stime, starts, early, ls) {
        if Deadlocks(cap, retries, status, stime, starts, early, ls) {
          if cap == 0 && !early {
            NoDeadlockWithoutSlots(retries, status, stime, ls);
          } else {
            NoSelfDeadlock(cap, retries, status, stime, ls);
          }
        }
      }
    }
  }

  // ---------------------------------------------------------------------
  // A token nobody granted
  // ---------------------------------------------------------------------

  /** A disabled job without a control loop that could still move. */
  ghost predicate Asleep(s: Sys, gone: seq<Loop>) {
    && s.core.loops == gone && (forall l | l in gone :: l.runs == [] && l.pc == Returned)
    && s.state == StateDisabled && s.ctrl == [] && s.mgr == [] && !s.slot.sched
    && (s.sched == SelectMsg || s.sched == Popped) && s.handler == Free
    && !s.stuck && !s.crashed && !s.exit && !s.closing && s.seen.starts == 0
  }

  /** A disabled job after start-up, or one that start-up enabled, whose first
      schedule is due, and that was told to disable itself. */
  lemma PutToSleep(cap: nat, retries: int, status: SyncStatus, stime: int) returns (ls: seq<Label>, s: Sys)
    ensures Interleave(Boot(cap, retries, status, stime), ls) == Some(s)
    ensures Asleep(s, s.core.loops) && SchedToken(s.sched) == BootGrant(status)
    ensures s.seen.halts == 0 && (status == Disabled ==> s.seen.injects == 0 && s.core.loops == [])
  {
    var s0 := Boot(cap, retries, status, stime);
    assert Interleave(s0, []) == Some(s0);
    hide Interleave;
    ls := StartUp(s0, [], s0, status, stime);
    s := Up(s0, status, stime);
    if status != Disabled {
      ls, s := WakeAndDisable(s0, ls, s);
    }
  }

  lemma WakeAndDisable(s0: Sys, ls: seq<Label>, s: Sys) returns (ls': seq<Label>, s': Sys)
    requires Interleave(s0, ls) == Some(s) && Calm(s, Launched) && s.core.loops == [NEW_LOOP]
    requires s.state != StateReady && s.ctrl == []
    ensures Interleave(s0, ls') == Some(s')
    ensures s'.core.loops == [NEW_LOOP.(pc := Returned)]
    ensures s' == s.(core := s'.core, state := StateDisabled, slot := S.Remove(s.slot),
                     sched := if s.slot.sched then Popped else SelectMsg,
                     seen := s.seen.(injects := s.seen.injects + 1))
  {
    hide Interleave;
    ls', s' := Settle(s0, ls, s);
    ls', s' := PopDue(s0, ls', s');
    hide Calm;
    ls', s' := DisableIdle(s0, ls', s');
  }

  /** What is scheduled comes due and is popped. */
  lemma PopDue(s0: Sys, ls: seq<Label>, s: Sys) returns (ls': seq<Label>, s': Sys)
    requires Interleave(s0, ls) == Some(s) && s.sched == SelectMsg && !s.crashed
    ensures Interleave(s0, ls') == Some(s')
    ensures s' == if s.slot.sched then s.(slot := S.Remove(s.slot), sched := Popped) else s
  {
    hide Interleave;
    ls', s' := ls, s;
    if s.slot.sched {
      s' := s.(slot := S.Remove(s.slot), sched := Popped);
      ls' := Go(s0, ls, s, SchedStep(Tick(s.slot.nextScheduled * S.SECOND + 1)), s');
    }
  }

  /** An idle loop is told to disable the job. */
  lemma DisableIdle(s0: Sys, ls: seq<Label>, s: Sys) returns (ls': seq<Label>, s': Sys)
    requires Interleave(s0, ls) == Some(s) && s.core.loops == [NEW_LOOP.(pc := Idle)] && s.ctrl == [] && !s.crashed
    ensures Interleave(s0, ls') == Some(s')
    ensures s' == s.(core := s'.core, state := StateDisabled, seen := s.seen.(injects := s.seen.injects + 1))
    ensures s'.core.loops == [NEW_LOOP.(pc := Returned)]
  {
    hide Interleave;
    var s1 := s.(ctrl := [JobDisable], seen := s.seen.(injects := s.seen.injects + 1));
    assert s.ctrl + [JobDisable] == [JobDisable];
    ls' := Go(s0, ls, s, FrontStep(Inject(JobDisable)), s1);
    var s2 := s.(core := Put(s.core, 0, NEW_LOOP.(pc := GotIdle(JobDisable))), seen := s1.seen);
    assert s1.ctrl[1..] == [];
    ls' := Go(s0, ls', s1, LoopStep(0, RecvCtrl), s2);
    ls', s' := DisableAct(s0, ls', s2);
  }

  lemma DisableAct(s0: Sys, ls: seq<Label>, s: Sys) returns (ls': seq<Label>, s': Sys)
    requires Interleave(s0, ls) == Some(s) && s.core.loops == [NEW_LOOP.(pc := GotIdle(JobDisable))] && !s.crashed
    ensures Interleave(s0, ls') == Some(s')
    ensures s' == s.(core := s'.core, state := StateDisabled) && s'.core.loops == [NEW_LOOP.(pc := Returned)]
  {
    hide Interleave;
    var l := NEW_LOOP.(pc := Returned);
    s' := s.(core := Put(s.core, 0, l).(jobsDone := s.core.jobsDone - 1), state := StateDisabled);
    assert s'.core.loops == [l];
    ls' := Go(s0, ls, s, LoopStep(0, Act), s');
  }

  function WithLoops(s: Sys, gone: seq<Loop>, a: Loop, b: Loop): Sys {
    s.(core := s.core.(loops := gone + [a, b]))
  }

  /** One step of one of the last two loops. */
  lemma MoveOf(s0: Sys, ls: seq<Label>, s: Sys, gone: seq<Loop>, a: Loop, b: Loop, i: nat, move: LoopMove, l: Loop,
               state: JobState, counted: nat) returns (ls': seq<Label>)
    requires Interleave(s0, ls) == Some(s) && s == WithLoops(s, gone, a, b) && i < 2 && !s.crashed
    requires StepLoop(s, |gone| + i, move) ==
             Some(s.(core := Put(s.core, |gone| + i, l).(jobsDone := s.core.jobsDone + counted), state := state))
    ensures var t := if i == 0 then WithLoops(s, gone, l, b) else WithLoops(s, gone, a, l);
            Interleave(s0, ls') == Some(t.(core := t.core.(jobsDone := s.core.jobsDone + counted), state := state))
  {
    var t := if i == 0 then WithLoops(s, gone, l, b) else WithLoops(s, gone, a, l);
    var t' := t.(core := t.core.(jobsDone := s.core.jobsDone + counted), state := state);
    UpdateTwo(gone, a, b, i, l);
    hide StepLoop, Interleave;
    ls' := Go(s0, ls, s, LoopStep(|gone| + i, move), t');
  }

  lemma UpdateTwo(gone: seq<Loop>, a: Loop, b: Loop, i: nat, l: Loop)
    requires i < 2
    ensures (gone + [a, b])[|gone| + i := l] == if i == 0 then gone + [l, b] else gone + [a, l]
  {
  }

  /** The last loop, launched with a start command queued, takes the command but
      has not stored the new state yet. */
  lemma TakeCommand(s0: Sys, ls: seq<Label>, s: Sys, gone: seq<Loop>) returns (ls': seq<Label>, s': Sys)
    requires Interleave(s0, ls) == Some(s) && s.core.loops == gone + [NEW_LOOP] && s.ctrl == [JobStart]
    requires s.state == StateDisabled && !s.crashed
    ensures Interleave(s0, ls') == Some(s')
    ensures s' == s.(core := s'.core, ctrl := []) && s'.core.retries == s.core.retries
    ensures s'.core.loops == gone + [NEW_LOOP.(pc := GotIdle(JobStart))]
  {
    hide Interleave;
    var n := |gone|;
    assert forall l :: (gone + [NEW_LOOP])[n := l] == gone + [l];
    var s1 := s.(core := Put(s.core, n, NEW_LOOP.(pc := Top)).(jobsDone := s.core.jobsDone + 1));
    ls' := Go(s0, ls, s, LoopStep(n, CountIn), s1);
    var s2 := s1.(core := Put(s1.core, n, NEW_LOOP.(pc := Idle)));
    ls' := Go(s0, ls', s1, LoopStep(n, CheckState), s2);
    s' := s2.(core := Put(s2.core, n, NEW_LOOP.(pc := GotIdle(JobStart))), ctrl := []);
    assert s2.ctrl[1..] == [];
    ls' := Go(s0, ls', s2, LoopStep(n, RecvCtrl), s');
  }

  /** Two quick start commands to a disabled job: the first loop has taken its
      command but not yet stored the new state when the handler, still reading
      disabled, launches a second loop. */
  lemma LaunchTwo(s0: Sys, ls: seq<Label>, s: Sys, gone: seq<Loop>) returns (ls': seq<Label>, s': Sys)
    requires Interleave(s0, ls) == Some(s) && Asleep(s, gone)
    ensures Interleave(s0, ls') == Some(s')
    ensures s' == WithLoops(s', gone, NEW_LOOP.(pc := GotIdle(JobStart)), NEW_LOOP)
    ensures s' == s.(core := s'.core, ctrl := [JobStart], seen := s.seen.(starts := 2), slot := S.Remove(s.slot))
    ensures s'.core.retries == s.core.retries
  {
    hide Interleave;
    var s1, s2: Sys;
    ls', s1 := CommandLaunches(s0, ls, s, false);
    ls', s2 := TakeCommand(s0, ls', s1, gone);
    ls', s' := CommandLaunches(s0, ls', s2, false);
    var a := NEW_LOOP.(pc := GotIdle(JobStart));
    assert gone + [a] + [NEW_LOOP] == gone + [a, NEW_LOOP];
  }

  /** The first loop stores the new state and starts a run. */
  lemma FirstReady(s0: Sys, ls: seq<Label>, s: Sys, gone: seq<Loop>) returns (ls': seq<Label>, s': Sys)
    requires Interleave(s0, ls) == Some(s) && !s.crashed
    requires s == WithLoops(s, gone, NEW_LOOP.(pc := GotIdle(JobStart)), NEW_LOOP)
    ensures Interleave(s0, ls') == Some(s')
    ensures s' == WithLoops(s, gone, NEW_LOOP.(pc := Waiting, runs := [NEW_RUN]), NEW_LOOP).(state := StateReady)
  {
    hide Interleave;
    var taken, a := NEW_LOOP.(pc := GotIdle(JobStart)), NEW_LOOP.(pc := Top);
    var b := NEW_LOOP.(pc := Waiting, runs := [] + [NEW_RUN]);
    ls' := MoveOf(s0, ls, s, gone, taken, NEW_LOOP, 0, Act, a, StateReady, 0);
    s' := WithLoops(s, gone, a, NEW_LOOP).(state := StateReady);
    ls' := MoveOf(s0, ls', s', gone, a, NEW_LOOP, 0, CheckState, b, StateReady, 0);
    s' := WithLoops(s', gone, b, NEW_LOOP);
    assert b.runs == [NEW_RUN];
  }

  /** The second loop finds the job ready too. */
  lemma SecondReady(s0: Sys, ls: seq<Label>, s: Sys, gone: seq<Loop>) returns (ls': seq<Label>, s': Sys)
    requires Interleave(s0, ls) == Some(s) && !s.crashed && s.state == StateReady
    requires s == WithLoops(s, gone, NEW_LOOP.(pc := Waiting, runs := [NEW_RUN]), NEW_LOOP)
    ensures Interleave(s0, ls') == Some(s')
    ensures s' == s.(core := s'.core) && s'.core.retries == s.core.retries
    ensures var b := NEW_LOOP.(pc := Waiting, runs := [NEW_RUN]); s'.core.loops == gone + [b, b]
  {
    hide Interleave;
    var a, b := NEW_LOOP.(pc := Top), NEW_LOOP.(pc := Waiting, runs := [] + [NEW_RUN]);
    assert b.runs == [NEW_RUN];
    ls' := MoveOf(s0, ls, s, gone, b, NEW_LOOP, 1, CountIn, a, StateReady, 1);
    s' := WithLoops(s, gone, b, a);
    s' := s'.(core := s'.core.(jobsDone := s.core.jobsDone + 1));
    ls' := MoveOf(s0, ls', s', gone, b, a, 1, CheckState, b, StateReady, 0);
    s' := WithLoops(s', gone, b, b);
  }

  /** Both loops find the job ready and start a run, and the second command is
      still queued: three tokens out of two commands. */
  lemma UngrantedToken(cap: nat, retries: int, status: SyncStatus, stime: int) returns (ls: seq<Label>, s: Sys)
    ensures Interleave(Boot(cap, retries, status, stime), ls) == Some(s)
    ensures s.seen.starts == 2 && s.ctrl == [JobStart]
    ensures status == Disabled ==> |s.core.loops| == 2 && s.seen.injects == 0
    ensures Tokens(s, false) == BootGrant(status) + 3 > BootGrant(status) + s.seen.starts
  {
    hide Interleave, Tokens;
    var s0 := Boot(cap, retries, status, stime);
    ls, s := PutToSleep(cap, retries, status, stime);
    var gone := s.core.loops;
    ls, s := LaunchTwo(s0, ls, s, gone);
    ls, s := FirstReady(s0, ls, s, gone);
    ls, s := SecondReady(s0, ls, s, gone);
    ThreeTokens(s, gone);
  }

  lemma ThreeTokens(s: Sys, gone: seq<Loop>)
    requires var b := NEW_LOOP.(pc := Waiting, runs := [NEW_RUN]); s.core.loops == gone + [b, b]
    requires forall l | l in gone :: l.runs == [] && l.pc == Returned
    requires s.ctrl == [JobStart] && s.mgr == [] && !s.slot.sched && s.handler == Free
    ensures Tokens(s, false) == 3 + SchedToken(s.sched)
  {
    var b := NEW_LOOP.(pc := Waiting, runs := [NEW_RUN]);
    var f := LoopTokenOf(s.core.retries, s.state == StateReady, false);
    var g := RunTokenOf(s.core.retries);
    assert [NEW_RUN][..0] == [] && [b, b][..1] == [b] && [b][..0] == [] && [JobStart][..0] == [];
    assert Sum([NEW_RUN], g) == 1;
    assert f(b) == 1;
    assert Sum([b, b], f) == Sum([b], f) + f(b) && Sum([b], f) == f(b);
    assert Sum(s.ctrl, CtrlTokenOf(false)) == 1;
    assert forall l | l in gone :: f(l) == 0;
    SumZero(gone, f);
    SumConcat(gone, [b, b], f);
  }

  /** An interleaving with at most `starts` accepted start or restart commands,
      and no injected jobDisable unless `disables`, with more tokens than
      granted. */
  ghost predicate Exceeds(cap: nat, retries: int, status: SyncStatus, stime: int, starts: nat, disables: bool,
                          ls: seq<Label>) {
    var s := Interleave(Boot(cap, retries, status, stime), ls);
    && s.Some? && s.value.seen.starts <= starts && (disables || FrontStep(Inject(JobDisable)) !in ls)
    && BootGrant(status) + s.value.seen.starts < Tokens(s.value, false)
  }

  /** Exactly when the sharp bound can be exceeded: two accepted start or restart
      commands suffice if and only if the job is disabled when they arrive,
      because it starts up disabled or is told to disable itself. */
  lemma SharpBoundIff(cap: nat, retries: int, status: SyncStatus, stime: int, starts: nat, disables: bool)
    ensures (exists ls :: Exceeds(cap, retries, status, stime, starts, disables, ls))
            <==> 2 <= starts && (status == Disabled || disables)
  {
    if 2 <= starts && (status == Disabled || disables) {
      var ls, s := UngrantedToken(cap, retries, status, stime);
      if status == Disabled {
        NoInjects(Boot(cap, retries, status, stime), ls, JobDisable);
      }
      assert Exceeds(cap, retries, status, stime, starts, disables, ls);
    } else {
      forall ls: seq<Label> ensures !Exceeds(cap, retries, status, stime, starts, disables, ls) {
        if Exceeds(cap, retries, status, stime, starts, disables, ls) {
          TokenBound(cap, retries, status, stime, ls);
        }
      }
    }
  }

  /** The counter of injected actions tells whether there were any. */
  lemma {:induction false} NoInjects(s: Sys, ls: seq<Label>, c: Ctrl)
    requires Interleave(s, ls).Some?
    ensures s.seen.injects <= Interleave(s, ls).value.seen.injects
    ensures Interleave(s, ls).value.seen.injects == s.seen.injects ==> FrontStep(Inject(c)) !in ls
  {
    if ls != [] {
      var before, lbl := ls[..|ls| - 1], ls[|ls| - 1];
      NoInjects(s, before, c);
      NextInjects(Interleave(s, before).value, lbl);
      assert ls == before + [lbl];
    }
  }

  lemma NextInjects(s: Sys, lbl: Label)
    requires Next(s, lbl).Some?
    ensures Next(s, lbl).value.seen.injects == s.seen.injects + if lbl.FrontStep? && lbl.frontMove.Inject? then 1 else 0
  {
    hide StepLoop, StepRun, StepStart, StepSched, HandlerReady, NextHandler, Queued;
    match lbl
    case LoopStep(i, move) => LoopStepFrame(s, i, move);
    case RunStep(i, j, move) => RunStepFrame(s, i, j, move);
    case StartStep => StartFrame(s);
    case SchedStep(move) => SchedFrame(s, move);
    case FrontStep(move) =>
  }
}
