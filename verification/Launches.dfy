/** How many control loops a worker can have, from what was asked of it: one for
    an enabled start-up, and one per start or restart command that finds the job
    disabled.
    Models worker/worker.go, lines 102 to 127 and 163 to 185.
 */
module Launches {
  import opened JobTypes
  import opened Protocol
  import opened Safety

  /** A start or restart command that has been accepted and may still launch a
      loop. */
  function Owed(pc: HandlerPc): nat {
    if (pc.Flush? || pc.Check?) && StartsJob(pc.cmd) then 1 else 0
  }

  /** The loop start-up itself launches. */
  function Own(status: SyncStatus, pc: SchedPc): nat {
    if status == Disabled || Unlaunched(pc) then 0 else 1
  }

  /** A loop that was told to disable the job and is on its way to return. */
  predicate Doomed(pc: LoopPc) {
    pc == Returned || pc == Killing(JobDisable) || pc == Awaiting(JobDisable)
  }

  /** There is at most one loop, apart from a doomed first one. */
  predicate Few(s: Sys) {
    |s.core.loops| <= 1 || (|s.core.loops| == 2 && Doomed(s.core.loops[0].pc))
  }

  /** Loops never outnumber their causes; and while at most one start or restart
      command was accepted, the loop of an enabled start-up is doomed before a
      command can launch another. */
  predicate Orderly(s: Sys, status: SyncStatus) {
    && (Unlaunched(s.sched) ==> s.sched.status == status)
    && |s.core.loops| + Owed(s.handler) <= s.seen.starts + Own(status, s.sched)
    && Own(status, s.sched) <= |s.core.loops|
    && (status != Disabled && s.seen.starts <= 1 ==>
          && (|s.core.loops| == 1 && s.state == StateDisabled ==> Doomed(s.core.loops[0].pc))
          && (|s.core.loops| == 2 ==> Doomed(s.core.loops[0].pc)))
  }

  lemma ActDoomed(l: Loop, state: JobState)
    requires LoopAfterAct(l, state).Some?
    ensures Doomed(l.pc) ==> Doomed(LoopAfterAct(l, state).value.0.pc) && LoopAfterAct(l, state).value.1 == state
    ensures LoopAfterAct(l, state).value.1 == StateDisabled && state != StateDisabled ==>
              Doomed(LoopAfterAct(l, state).value.0.pc)
  {
  }

  /** A doomed loop stays doomed and leaves the state alone, and a loop that
      disables the job is doomed. */
  lemma LoopStepDoomed(s: Sys, i: nat, move: LoopMove)
    requires StepLoop(s, i, move).Some?
    ensures var s' := StepLoop(s, i, move).value;
            && i < |s.core.loops| && i < |s'.core.loops|
            && (Doomed(s.core.loops[i].pc) ==> Doomed(s'.core.loops[i].pc) && s'.state == s.state)
            && (s'.state == StateDisabled && s.state != StateDisabled ==> Doomed(s'.core.loops[i].pc))
  {
    if move.Act? {
      hide LoopAfterAct, Doomed;
      ActDoomed(s.core.loops[i], s.state);
    } else {
      hide LoopAfterAct;
    }
  }

  lemma LoopOrderly(s: Sys, i: nat, move: LoopMove, status: SyncStatus)
    requires Orderly(s, status) && StepLoop(s, i, move).Some?
    ensures Orderly(StepLoop(s, i, move).value, status)
  {
    hide Doomed, StepLoop;
    LoopStepFrame(s, i, move);
    LoopStepDoomed(s, i, move);
  }

  lemma RunOrderly(s: Sys, i: nat, j: nat, move: RunMove, status: SyncStatus)
    requires Orderly(s, status) && StepRun(s, i, j, move).Some?
    ensures Orderly(StepRun(s, i, j, move).value, status)
  {
    hide Doomed, StepRun;
    RunStepFrame(s, i, j, move);
  }

  lemma StartOrderly(s: Sys, status: SyncStatus)
    requires StartupOk(s) && Orderly(s, status) && StepStart(s).Some?
    ensures Orderly(StepStart(s).value, status)
  {
    hide Doomed, StepStart;
    StartFrame(s);
  }

  lemma SchedOrderly(s: Sys, move: SchedMove, status: SyncStatus)
    requires Orderly(s, status) && StepSched(s, move).Some?
    ensures Orderly(StepSched(s, move).value, status)
  {
    hide Doomed, StepSched;
    SchedFrame(s, move);
  }

  lemma FrontOrderly(s: Sys, move: FrontMove, status: SyncStatus)
    requires StartupOk(s) && Orderly(s, status) && StepFront(s, move).Some?
    ensures Orderly(StepFront(s, move).value, status)
  {
    hide Doomed, Queued;
  }

  /** The step lemma of the launch count. */
  lemma NextOrderly(s: Sys, lbl: Label, status: SyncStatus)
    requires Inv(s) && Orderly(s, status) && Next(s, lbl).Some?
    ensures Orderly(Next(s, lbl).value, status)
  {
    hide CoreInv, StartupOk, Orderly, StepLoop, StepRun, StepStart, StepSched, StepFront;
    match lbl
    case LoopStep(i, move) => LoopOrderly(s, i, move, status);
    case RunStep(i, j, move) => RunOrderly(s, i, j, move, status);
    case StartStep => StartOrderly(s, status);
    case SchedStep(move) => SchedOrderly(s, move, status);
    case FrontStep(move) => FrontOrderly(s, move, status);
  }

  lemma {:induction false} InterleaveOrderly(cap: nat, retries: int, status: SyncStatus, stime: int, ls: seq<Label>)
    requires Interleave(Boot(cap, retries, status, stime), ls).Some?
    ensures Orderly(Interleave(Boot(cap, retries, status, stime), ls).value, status)
  {
    if ls != [] {
      var before := ls[..|ls| - 1];
      InterleaveOrderly(cap, retries, status, stime, before);
      BootInv(cap, retries, status, stime);
      InterleaveInv(Boot(cap, retries, status, stime), before);
      hide Inv, Orderly, Next;
      NextOrderly(Interleave(Boot(cap, retries, status, stime), before).value, ls[|ls| - 1], status);
    }
  }

  /** The number of control loops ever launched, whatever is injected: at most
      the accepted start and restart commands, and one for an enabled start-up. */
  lemma LaunchBound(cap: nat, retries: int, status: SyncStatus, stime: int, ls: seq<Label>)
    requires Interleave(Boot(cap, retries, status, stime), ls).Some?
    ensures var s := Interleave(Boot(cap, retries, status, stime), ls).value;
            |s.core.loops| <= s.seen.starts + if status == Disabled then 0 else 1
  {
    InterleaveOrderly(cap, retries, status, stime, ls);
  }

  // ---------------------------------------------------------------------
  // Interleavings with one loop at a time
  // ---------------------------------------------------------------------

  /** Every state on the way has few loops. */
  ghost predicate AlwaysFew(s: Sys, ls: seq<Label>)
    requires Interleave(s, ls).Some?
  {
    Few(Interleave(s, ls).value) && (ls != [] ==> AlwaysFew(s, ls[..|ls| - 1]))
  }

  /** What a caller can check: the job starts up enabled and is never told to
      disable itself, or at most one start or restart command is accepted. */
  predicate Checked(status: SyncStatus, ls: seq<Label>, starts: nat) {
    (status != Disabled && FrontStep(Inject(JobDisable)) !in ls) || starts <= 1
  }

  lemma CheckedFew(cap: nat, retries: int, status: SyncStatus, stime: int, ls: seq<Label>)
    requires Interleave(Boot(cap, retries, status, stime), ls).Some?
    requires Checked(status, ls, Interleave(Boot(cap, retries, status, stime), ls).value.seen.starts)
    ensures Few(Interleave(Boot(cap, retries, status, stime), ls).value)
  {
    InterleaveOrderly(cap, retries, status, stime, ls);
    if status != Disabled && FrontStep(Inject(JobDisable)) !in ls {
      OneLoop(cap, retries, status, stime, ls);
    }
  }

  /** Loops and accepted commands are never taken back. */
  lemma NeverFewer(s: Sys, lbl: Label)
    requires Next(s, lbl).Some?
    ensures s.seen.starts <= Next(s, lbl).value.seen.starts && |s.core.loops| <= |Next(s, lbl).value.core.loops|
  {
    StepInRange(s, lbl);
    hide StepLoop, StepRun, StepStart, StepSched, HandlerReady, NextHandler, Queued;
    match lbl
    case LoopStep(i, move) => LoopStepFrame(s, i, move);
    case RunStep(i, j, move) => RunStepFrame(s, i, j, move);
    case StartStep => StartFrame(s);
    case SchedStep(move) => SchedFrame(s, move);
    case FrontStep(move) =>
  }

  lemma {:induction false} CheckedAlwaysFew(cap: nat, retries: int, status: SyncStatus, stime: int, ls: seq<Label>)
    requires Interleave(Boot(cap, retries, status, stime), ls).Some?
    requires var s := Interleave(Boot(cap, retries, status, stime), ls).value;
             Checked(status, ls, s.seen.starts) || |s.core.loops| <= 1
    ensures AlwaysFew(Boot(cap, retries, status, stime), ls)
  {
    var s0 := Boot(cap, retries, status, stime);
    if Checked(status, ls, Interleave(s0, ls).value.seen.starts) {
      CheckedFew(cap, retries, status, stime, ls);
    }
    if ls != [] {
      var before := ls[..|ls| - 1];
      NeverFewer(Interleave(s0, before).value, ls[|ls| - 1]);
      hide Next, Few;
      CheckedAlwaysFew(cap, retries, status, stime, before);
    }
  }
}
