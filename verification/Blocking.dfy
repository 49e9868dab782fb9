/** Who waits for what: exactly when each goroutine of the worker is blocked, in
    every reachable state; and how the worker comes to crash or to shut down.
    Models worker/job.go, lines 95 to 328, and worker/worker.go.
 */
module Blocking {
  import opened JobTypes
  import opened Wrapper
  import opened Protocol
  import Sums

  // ---------------------------------------------------------------------
  // Runs
  // ---------------------------------------------------------------------

  /** Some step of the run is possible, or its loop can receive what it offers. */
  ghost predicate RunMoves(s: Sys, i: nat, j: nat) {
    || (exists move :: Next(s, RunStep(i, j, move)).Some?)
    || (i < |s.core.loops| && j == |s.core.loops[i].runs| - 1 && s.core.loops[i].runs[j].phase.KillSelected?
        && Next(s, LoopStep(i, RecvDone)).Some?)
  }

  lemma WrapperMoves(s: Sys, i: nat, j: nat)
    requires !s.crashed && i < |s.core.loops| && j < |s.core.loops[i].runs|
    requires var phase := s.core.loops[i].runs[j].phase;
             phase.Wrapping? && !phase.pc.Crashed? && (phase.pc.Sending? ==> |s.mgr| < MGR_CAP)
    ensures exists move :: Next(s, RunStep(i, j, move)).Some?
  {
    var pc := s.core.loops[i].runs[j].phase.pc;
    var move := match pc {
      case Sending(_, _) => Wrap(Proceed)
      case Test(_) => Wrap(Proceed)
      case PreJob => Wrap(HookOk)
      case PreExec(_) => Wrap(HookOk)
      case Starting(_) => Wrap(ProviderStarted)
      case Running(_, _) => Wrap(SyncDone(false))
      case PostExec(_, _, _) => Wrap(HookOk)
      case PostHooks(_, _, _) => Wrap(HookOk)
      case Report(_, _, _) => Wrap(ReadState(s.state == StateReady))
      case _ => CloseDone
    };
    assert Next(s, RunStep(i, j, move)).Some?;
  }

  /** Why a run is blocked: it waits for a slot, was told neither to go ahead
      without one nor to stop; it waits for room in the manager channel; or it
      offers to signal its end to a loop that has returned. */
  predicate RunWaits(s: Sys, l: Loop, r: Run) {
    || (r.phase.Selecting? && s.core.sem == s.core.cap && !l.bypass && r.kills == 0)
    || (r.phase.Wrapping? && r.phase.pc.Sending? && |s.mgr| == 32)
    || (r.phase.KillSelected? && l.abandoned)
  }

  predicate Unended(r: Run) {
    !r.phase.Over? && r.phase != Wrapping(Crashed)
  }

  lemma RunFree(s: Sys, i: nat, j: nat)
    requires Inv(s) && !s.crashed && i < |s.core.loops| && j < |s.core.loops[i].runs|
    requires Unended(s.core.loops[i].runs[j])
    requires !RunWaits(s, s.core.loops[i], s.core.loops[i].runs[j])
    ensures RunMoves(s, i, j)
  {
    var l, r := s.core.loops[i], s.core.loops[i].runs[j];
    assert LoopOk(s.core.retries, l) && RunOk(s.core.retries, r);
    match r.phase
    case Selecting =>
      var move := if 0 < r.kills then TakeKill else if l.bypass then Bypass else Acquire;
      hide LoopOk, RunOk;
      assert Next(s, RunStep(i, j, move)).Some?;
    case KillSelected => assert j == |l.runs| - 1 && l.pc.Awaiting?; hide Inv, LoopOk, RunOk; OfferMoves(s, i);
    case Wrapping(pc) => hide Inv, LoopOk, RunOk; WrapperMoves(s, i, j);
    case Releasing => ReleaseMoves(s, i, j); hide Inv, LoopOk, RunOk;
    case Over =>
  }

  lemma OfferMoves(s: Sys, i: nat)
    requires !s.crashed && i < |s.core.loops| && s.core.loops[i].pc.Awaiting? && s.core.loops[i].runs != []
    requires Last(s.core.loops[i]).phase.KillSelected?
    ensures Next(s, LoopStep(i, RecvDone)).Some?
  {
  }

  /** Who holds a slot finds one to give back. */
  lemma ReleaseMoves(s: Sys, i: nat, j: nat)
    requires Inv(s) && !s.crashed && i < |s.core.loops| && j < |s.core.loops[i].runs|
    requires s.core.loops[i].runs[j].phase.Releasing?
    ensures exists move :: Next(s, RunStep(i, j, move)).Some?
  {
    var l, r := s.core.loops[i], s.core.loops[i].runs[j];
    assert LoopOk(s.core.retries, l) && RunOk(s.core.retries, r);
    Sums.SumUpdate(l.runs, j, r.(slot := false), HeldRun);
    Sums.SumUpdate(s.core.loops, i, l.(runs := []), Held);
    assert 0 < s.core.sem;
    hide Inv, LoopOk, RunOk;
    assert Next(s, RunStep(i, j, Release)).Some?;
  }

  lemma RunStuck(s: Sys, i: nat, j: nat)
    requires Inv(s) && i < |s.core.loops| && j < |s.core.loops[i].runs|
    requires RunWaits(s, s.core.loops[i], s.core.loops[i].runs[j])
    ensures !RunMoves(s, i, j)
  {
    assert LoopOk(s.core.retries, s.core.loops[i]);
  }

  // ---------------------------------------------------------------------
  // The others
  // ---------------------------------------------------------------------

  /** A loop waits for a command, or for the end of its run, or for either. */
  predicate LoopWaits(s: Sys, l: Loop) {
    || (l.pc.Waiting? && s.ctrl == [] && !Signals(l))
    || (l.pc.Awaiting? && !Signals(l))
    || (l.pc.Idle? && s.ctrl == [])
  }

  /** The current run has closed `jobDone`, or offers a value on it. */
  predicate Signals(l: Loop) {
    l.runs != [] && (0 < Last(l).closes || Last(l).phase.KillSelected?)
  }

  ghost predicate LoopMoves(s: Sys, i: nat) {
    exists move :: Next(s, LoopStep(i, move)).Some?
  }

  lemma LoopFree(s: Sys, i: nat)
    requires Inv(s) && !s.crashed && i < |s.core.loops| && s.core.loops[i].pc != Returned
    ensures LoopMoves(s, i) <==> !LoopWaits(s, s.core.loops[i])
  {
    var l := s.core.loops[i];
    assert LoopOk(s.core.retries, l);
    hide Inv, LoopOk;
    if !LoopWaits(s, l) {
      var move := match l.pc {
        case Launched => CountIn
        case Top => CheckState
        case Waiting => if Signals(l) then RecvDone else RecvCtrl
        case Awaiting(_) => RecvDone
        case Idle => RecvCtrl
        case _ => Act
      };
      assert l.pc.Killing? ==> l.runs != [];
      assert Next(s, LoopStep(i, move)).Some?;
    }
  }

  /** `runSchedule` waits for the worker's lock, for room in the control channel,
      or, stuck in `AddJob`, for ever. */
  predicate SchedWaits(s: Sys) {
    || (s.sched.AwaitLock? && s.handler != Free)
    || (s.sched.Popped? && |s.ctrl| == 1)
    || s.stuck
  }

  ghost predicate SchedMoves(s: Sys) {
    Next(s, StartStep).Some? || exists move :: Next(s, SchedStep(move)).Some?
  }

  /** `AddJob` that got stuck leaves `runSchedule` where it is. */
  predicate StuckThere(s: Sys) {
    s.stuck ==> s.sched.Accepted? && s.sched.m.schedule
  }

  lemma SchedFree(s: Sys)
    requires Inv(s) && !s.crashed && s.sched != Down && StuckThere(s)
    ensures SchedMoves(s) <==> !SchedWaits(s)
  {
    hide CoreInv;
    if !SchedWaits(s) {
      if !Unlaunched(s.sched) && !s.sched.Scheduling? && !s.sched.Unlocking? {
        var move := match s.sched {
          case SelectMsg => Tick(0)
          case GotMsg(_) => LoadState
          case NotReady(_) => LoadState
          case Accepted(_) => AddJob(0)
          case Popped => SendStart
          case _ => Drain
        };
        assert Next(s, SchedStep(move)).Some?;
      } else {
        assert Next(s, StartStep).Some?;
      }
    }
  }

  /** A handler waits for a stuck schedule, for room in the control channel, or, in
      `Halt`, for the control loops. */
  predicate HandlerWaits(s: Sys) {
    || (s.handler.Flush? && s.stuck)
    || ((s.handler.Send? || s.handler.HaltSend?) && |s.ctrl| == 1)
    || (s.handler.HaltWait? && s.core.jobsDone != 0)
  }

  lemma HandlerFree(s: Sys)
    requires |s.ctrl| <= CTRL_CAP && !s.crashed && s.handler != Free
    ensures Next(s, FrontStep(Advance)).Some? <==> !HandlerWaits(s)
  {
  }

  lemma NextStuckThere(s: Sys, lbl: Label)
    requires Inv(s) && StuckThere(s) && Next(s, lbl).Some?
    ensures StuckThere(Next(s, lbl).value)
  {
    hide CoreInv, StepLoop, StepRun, HandlerReady, NextHandler, Queued;
    match lbl
    case LoopStep(i, move) => LoopStepFrame(s, i, move);
    case RunStep(i, j, move) => RunStepFrame(s, i, j, move);
    case StartStep =>
    case SchedStep(move) =>
    case FrontStep(move) =>
  }

  lemma {:induction false} StuckThereAlways(cap: nat, retries: int, status: SyncStatus, stime: int, ls: seq<Label>)
    requires Interleave(Boot(cap, retries, status, stime), ls).Some?
    ensures StuckThere(Interleave(Boot(cap, retries, status, stime), ls).value)
  {
    if ls != [] {
      var before := ls[..|ls| - 1];
      StuckThereAlways(cap, retries, status, stime, before);
      BootInv(cap, retries, status, stime);
      InterleaveInv(Boot(cap, retries, status, stime), before);
      hide Inv, Next, StuckThere;
      NextStuckThere(Interleave(Boot(cap, retries, status, stime), before).value, ls[|ls| - 1]);
    }
  }

  /** In every reachable state in which the worker has not crashed, each goroutine
      that has not ended is blocked exactly for the reasons above. */
  lemma BlockedIff(cap: nat, retries: int, status: SyncStatus, stime: int, ls: seq<Label>)
    requires Interleave(Boot(cap, retries, status, stime), ls).Some?
    requires !Interleave(Boot(cap, retries, status, stime), ls).value.crashed
    ensures var s := Interleave(Boot(cap, retries, status, stime), ls).value;
            && (forall i | 0 <= i < |s.core.loops| && s.core.loops[i].pc != Returned ::
                  LoopMoves(s, i) <==> !LoopWaits(s, s.core.loops[i]))
            && (forall i, j | 0 <= i < |s.core.loops| && 0 <= j < |s.core.loops[i].runs|
                              && Unended(s.core.loops[i].runs[j]) ::
                  RunMoves(s, i, j) <==> !RunWaits(s, s.core.loops[i], s.core.loops[i].runs[j]))
            && (s.sched != Down ==> (SchedMoves(s) <==> !SchedWaits(s)))
            && (s.handler != Free ==> (Next(s, FrontStep(Advance)).Some? <==> !HandlerWaits(s)))
  {
    var s := Interleave(Boot(cap, retries, status, stime), ls).value;
    BootInv(cap, retries, status, stime);
    InterleaveInv(Boot(cap, retries, status, stime), ls);
    StuckThereAlways(cap, retries, status, stime, ls);
    if s.sched != Down { SchedFree(s); }
    if s.handler != Free { HandlerFree(s); }
    hide Interleave, Inv, Next, LoopMoves, LoopWaits, RunMoves, RunWaits, SchedMoves, SchedWaits;
    forall i | 0 <= i < |s.core.loops| && s.core.loops[i].pc != Returned
      ensures LoopMoves(s, i) <==> !LoopWaits(s, s.core.loops[i])
    {
      LoopFree(s, i);
    }
    forall i, j | 0 <= i < |s.core.loops| && 0 <= j < |s.core.loops[i].runs| && Unended(s.core.loops[i].runs[j])
      ensures RunMoves(s, i, j) <==> !RunWaits(s, s.core.loops[i], s.core.loops[i].runs[j])
    {
      if RunWaits(s, s.core.loops[i], s.core.loops[i].runs[j]) {
        RunStuck(s, i, j);
      } else {
        RunFree(s, i, j);
      }
    }
  }

  // ---------------------------------------------------------------------
  // Crashing and shutting down
  // ---------------------------------------------------------------------

  /** How often a `Halt` has passed its wait. */
  function Passes(s: Sys, ls: seq<Label>): nat
    requires Interleave(s, ls).Some?
  {
    if ls == [] then 0
    else
      var before := ls[..|ls| - 1];
      Passes(s, before) +
      if ls[|ls| - 1] == FrontStep(Advance) && Interleave(s, before).value.handler == HaltWait then 1 else 0
  }

  function Closes(ls: seq<Label>): nat {
    if ls == [] then 0 else Closes(ls[..|ls| - 1]) + if ls[|ls| - 1] == FrontStep(CloseExit) then 1 else 0
  }

  predicate Panicked(s: Sys, i: int, j: int) {
    0 <= i < |s.core.loops| && 0 <= j < |s.core.loops[i].runs| && s.core.loops[i].runs[j].phase == Wrapping(Crashed)
  }

  /** The worker's end in terms of how often `Halt` has passed its wait and `exit`
      was closed. */
  ghost predicate EndOk(s: Sys, passes: nat, closes: nat) {
    && passes == closes + (if s.closing then 1 else 0)
    && (s.exit <==> 1 <= closes)
    && (s.crashed <==> 2 <= closes || exists i, j :: Panicked(s, i, j))
    && (s.sched.Flushing? || s.sched.Down? ==> s.exit)
    && (s.handler.HaltCheck? || s.handler.HaltSend? || s.handler.HaltWait? ==> !s.closing)
  }

  /** A loop adds a run or ends its current one. */
  lemma LoopPhases(l: Loop, move: LoopMove, state: JobState, ctrl: seq<Ctrl>)
    requires LoopAfter(l, move, state, ctrl).Some?
    ensures var l' := LoopAfter(l, move, state, ctrl).value.0;
            forall j | 0 <= j < |l'.runs| ::
              || (j < |l.runs| && (l'.runs[j].phase == l.runs[j].phase || l'.runs[j].phase == Over))
              || l'.runs[j].phase == Selecting
  {
  }

  lemma LoopEnd(s: Sys, i: nat, move: LoopMove)
    requires (forall m, j :: !Panicked(s, m, j)) && StepLoop(s, i, move).Some?
    ensures forall m, j :: !Panicked(StepLoop(s, i, move).value, m, j)
  {
    LoopStepFrame(s, i, move);
    LoopPhases(s.core.loops[i], move, s.state, s.ctrl);
    hide StepLoop, LoopAfter;
    forall m, j ensures !Panicked(StepLoop(s, i, move).value, m, j) {
      assert !Panicked(s, m, j);
    }
  }

  lemma SameEnd(s: Sys, s': Sys)
    requires forall m, j :: !Panicked(s, m, j)
    requires s'.core.loops == s.core.loops || s'.core.loops == s.core.loops + [NEW_LOOP]
    ensures forall m, j :: !Panicked(s', m, j)
  {
    forall m, j ensures !Panicked(s', m, j) {
      assert !Panicked(s, m, j);
    }
  }

  lemma RunEnd(s: Sys, i: nat, j: nat, move: RunMove)
    requires !s.crashed && (forall m, n :: !Panicked(s, m, n)) && StepRun(s, i, j, move).Some?
    ensures var s' := StepRun(s, i, j, move).value; s'.crashed <==> exists m, n :: Panicked(s', m, n)
  {
    RunStepFrame(s, i, j, move);
    var s' := StepRun(s, i, j, move).value;
    assert s'.crashed <==> s'.core.loops[i].runs[j].phase == Wrapping(Crashed);
    hide StepRun;
    if s'.crashed {
      assert Panicked(s', i, j);
    }
    forall m, n | Panicked(s', m, n) ensures m == i && n == j {
      assert !Panicked(s, m, n);
    }
  }

  lemma FrontEnd(s: Sys, move: FrontMove, passes: nat, closes: nat)
    requires EndOk(s, passes, closes) && !s.crashed && StepFront(s, move).Some?
    ensures EndOk(StepFront(s, move).value,
                  passes + (if move == Advance && s.handler == HaltWait then 1 else 0),
                  closes + if move == CloseExit then 1 else 0)
  {
    assert forall i, j :: !Panicked(s, i, j);
    SameEnd(s, StepFront(s, move).value);
    hide Panicked, Queued;
  }

  lemma NextEnd(s: Sys, lbl: Label, passes: nat, closes: nat)
    requires EndOk(s, passes, closes) && Next(s, lbl).Some?
    ensures EndOk(Next(s, lbl).value,
                  passes + (if lbl == FrontStep(Advance) && s.handler == HaltWait then 1 else 0),
                  closes + if lbl == FrontStep(CloseExit) then 1 else 0)
  {
    var s' := Next(s, lbl).value;
    assert forall i, j :: !Panicked(s, i, j);
    match lbl
    case LoopStep(i, move) => LoopEnd(s, i, move); LoopStepFrame(s, i, move); hide StepLoop, Panicked;
    case RunStep(i, j, move) => RunEnd(s, i, j, move); RunStepFrame(s, i, j, move); hide StepRun, Panicked;
    case StartStep => StartFrame(s); SameEnd(s, s'); hide StepStart, Panicked;
    case SchedStep(move) => SchedFrame(s, move); SchedEnd(s, move); SameEnd(s, s'); hide StepSched, Panicked;
    case FrontStep(move) => FrontEnd(s, move, passes, closes); hide StepFront, EndOk, Panicked;
  }

  lemma SchedEnd(s: Sys, move: SchedMove)
    requires StepSched(s, move).Some?
    ensures var pc := StepSched(s, move).value.sched; pc.Flushing? || pc.Down? ==> s.exit || s.sched.Flushing?
  {
  }

  /** In every interleaving: `exit` is closed exactly if a `Halt` has passed its
      wait and gone on; the worker has crashed exactly if a run panicked or `exit`
      was closed twice; and `runSchedule` leaves its loop only after `exit`. */
  lemma {:induction false} Ends(cap: nat, retries: int, status: SyncStatus, stime: int, ls: seq<Label>)
    requires Interleave(Boot(cap, retries, status, stime), ls).Some?
    ensures EndOk(Interleave(Boot(cap, retries, status, stime), ls).value,
                  Passes(Boot(cap, retries, status, stime), ls), Closes(ls))
  {
    if ls != [] {
      var s0, before := Boot(cap, retries, status, stime), ls[..|ls| - 1];
      Ends(cap, retries, status, stime, before);
      hide Next, EndOk;
      NextEnd(Interleave(s0, before).value, ls[|ls| - 1], Passes(s0, before), Closes(before));
    }
  }
}
