/** A worker configured without semaphore slots: a run proceeds only through the
    bypass channel, so every message is paid for by a force-start command, and
    the schedule of start-up counts only if a start or restart command was
    accepted before start-up took the lock: any later one flushes it first.
    Models worker/job.go, lines 242 to 254, 284 to 292 and 313 to 318, and
    worker/worker.go, lines 43 and 86 to 133.
 */
module Forced {
  import opened JobTypes
  import opened Wrapper
  import opened Sums
  import opened Protocol
  import opened Activation

  /** A wrapper that may still report a message asking to be scheduled. */
  function RunForce(retries: int, r: Run): nat {
    if r.phase.Wrapping? && Pending(retries, r.phase.pc) then 1 else 0
  }

  function RunForceOf(retries: int): Run -> nat { r => RunForce(retries, r) }

  /** The force-start command in a loop's hands, in its bypass channel, or spent
      on a run. */
  function LoopForce(retries: int, l: Loop): nat {
    Sum(l.runs, RunForceOf(retries)) + (if l.bypass then 1 else 0) + ForceInHand(l.pc)
  }

  function LoopForceOf(retries: int): Loop -> nat { l => LoopForce(retries, l) }

  function CtrlForce(c: Ctrl): nat {
    if c == JobForceStart then 1 else 0
  }

  function AskToken(pc: SchedPc): nat {
    if pc.GotMsg? || pc.NotReady? || pc.Accepted? then MsgToken(pc.m) else 0
  }

  function HandlerForce(pc: HandlerPc): nat {
    if pc == Flush(CmdStart(true)) || pc == Check(CmdStart(true)) || pc == Send(JobForceStart) then 1 else 0
  }

  /** The force-start commands on their way and the requests to be scheduled
      they have turned into. */
  function Pressure(s: Sys): nat {
    Sum(s.ctrl, CtrlForce) + Sum(s.mgr, MsgToken) + Sum(s.core.loops, LoopForceOf(s.core.retries))
    + AskToken(s.sched) + HandlerForce(s.handler)
  }

  function Cell(s: Sys): nat {
    if s.slot.sched then 1 else 0
  }

  /** No step but accepting a command raises the pressure, nor the pressure and
      the cell together. */
  predicate Eases(s: Sys, s': Sys) {
    Pressure(s') <= Pressure(s) && Pressure(s') + Cell(s') <= Pressure(s) + Cell(s)
  }

  lemma DoneForce(retries: int, l: Loop)
    requires LoopAfterDone(l).Some?
    ensures LoopForce(retries, LoopAfterDone(l).value) <= LoopForce(retries, l)
  {
    hide Sum;
    SumUpdate(l.runs, |l.runs| - 1, DoneRun(Last(l)).value, RunForceOf(retries));
  }

  lemma ActForce(retries: int, l: Loop, state: JobState)
    requires LoopAfterAct(l, state).Some?
    ensures LoopForce(retries, LoopAfterAct(l, state).value.0) <= LoopForce(retries, l)
  {
    hide Sum;
    if l.pc.Killing? {
      SumUpdate(l.runs, |l.runs| - 1, Last(l).(kills := Last(l).kills + 1), RunForceOf(retries));
    }
  }

  lemma SpawnForce(retries: int, l: Loop)
    requires l.pc == Top
    ensures LoopForce(retries, l.(pc := Waiting, runs := l.runs + [NEW_RUN])) == LoopForce(retries, l)
  {
    SumAppend(l.runs, NEW_RUN, RunForceOf(retries));
  }

  lemma RecvForce(retries: int, l: Loop, c: Ctrl)
    requires LoopAfterRecv(l, c).Some?
    ensures LoopForce(retries, LoopAfterRecv(l, c).value) == LoopForce(retries, l) + CtrlForce(c)
  {
    hide Sum;
  }

  lemma StandForce(retries: int, l: Loop, pc: LoopPc)
    requires ForceInHand(pc) == ForceInHand(l.pc)
    ensures LoopForce(retries, l.(pc := pc)) == LoopForce(retries, l)
  {
    hide Sum;
  }

  lemma LoopForceStep(s: Sys, i: nat, move: LoopMove)
    requires i < |s.core.loops| && StepLoop(s, i, move).Some?
    ensures var k, s' := s.core, StepLoop(s, i, move).value;
            && i < |s'.core.loops|
            && LoopForce(k.retries, s'.core.loops[i]) + Sum(s'.ctrl, CtrlForce)
               <= LoopForce(k.retries, k.loops[i]) + Sum(s.ctrl, CtrlForce)
  {
    hide Sum, LoopForce, LoopAfterDone, LoopAfterAct, LoopAfterRecv;
    var retries, l := s.core.retries, s.core.loops[i];
    match move
    case CountIn => StandForce(retries, l, Top);
    case CheckState => SpawnForce(retries, l); StandForce(retries, l, Idle);
    case RecvDone => DoneForce(retries, l);
    case RecvCtrl => RecvForce(retries, l, s.ctrl[0]); SumHead(s.ctrl, CtrlForce);
    case Act => ActForce(retries, l, s.state);
  }

  lemma LoopEases(s: Sys, i: nat, move: LoopMove)
    requires i < |s.core.loops| && StepLoop(s, i, move).Some?
    ensures Eases(s, StepLoop(s, i, move).value)
  {
    LoopForceStep(s, i, move);
    LoopStepFrame(s, i, move);
    hide StepLoop, Sum, LoopForce;
    SumUpdate(s.core.loops, i, StepLoop(s, i, move).value.core.loops[i], LoopForceOf(s.core.retries));
  }

  /** A run moves: without slots it can only leave the select through the bypass
      channel, or be killed. */
  lemma RunForceStep(s: Sys, i: nat, j: nat, move: RunMove)
    requires i < |s.core.loops| && j < |s.core.loops[i].runs| && RunOk(s.core.retries, s.core.loops[i].runs[j])
    requires StepRun(s, i, j, move).Some? && s.core.cap == 0
    ensures var k, s' := s.core, StepRun(s, i, j, move).value;
            && i < |s'.core.loops| && j < |s'.core.loops[i].runs|
            && var l, l' := k.loops[i], s'.core.loops[i];
            && RunForce(k.retries, l'.runs[j]) + (if l'.bypass then 1 else 0) + Sum(s'.mgr, MsgToken)
               <= RunForce(k.retries, l.runs[j]) + (if l.bypass then 1 else 0) + Sum(s.mgr, MsgToken)
  {
    hide RunOk, Sum;
    var r := s.core.loops[i].runs[j];
    if move.Wrap? {
      hide Pending;
      WrapToken(s, r, move.choice);
      SumConcat(s.mgr, Emitted(r.phase.pc), MsgToken);
    }
  }

  lemma RunEases(s: Sys, i: nat, j: nat, move: RunMove)
    requires Inv(s) && s.core.cap == 0
    requires i < |s.core.loops| && j < |s.core.loops[i].runs| && StepRun(s, i, j, move).Some?
    ensures Eases(s, StepRun(s, i, j, move).value)
  {
    var k := s.core;
    var l := k.loops[i];
    assert LoopOk(k.retries, l) && RunOk(k.retries, l.runs[j]);
    hide StepRun, RunOk, LoopOk, Inv, Sum, RunForce;
    RunForceStep(s, i, j, move);
    RunStepFrame(s, i, j, move);
    var l' := StepRun(s, i, j, move).value.core.loops[i];
    SumUpdate(l.runs, j, l'.runs[j], RunForceOf(k.retries));
    SumUpdate(k.loops, i, l', LoopForceOf(k.retries));
  }

  lemma SchedEases(s: Sys, move: SchedMove)
    requires StepSched(s, move).Some?
    ensures Eases(s, StepSched(s, move).value)
  {
    hide Sum, LoopForceOf;
    match move
    case RecvMsg => SumHead(s.mgr, MsgToken);
    case Drain =>
      if s.mgr != [] {
        SumHead(s.mgr, MsgToken);
      }
    case SendStart => SumAppend(s.ctrl, JobStart, CtrlForce);
    case _ =>
  }

  lemma HandlerQueues(s: Sys)
    requires StepHandler(s).Some?
    ensures var s' := StepHandler(s).value;
            Sum(s'.ctrl, CtrlForce) + HandlerForce(s'.handler) <= Sum(s.ctrl, CtrlForce) + HandlerForce(s.handler)
  {
    hide Sum;
    match s.handler
    case Send(c) => SumAppend(s.ctrl, c, CtrlForce);
    case HaltSend => SumAppend(s.ctrl, JobHalt, CtrlForce);
    case _ =>
  }

  lemma HandlerEases(s: Sys)
    requires StepHandler(s).Some?
    ensures Eases(s, StepHandler(s).value)
  {
    HandlerQueues(s);
    NewLoopForce(s.core);
    hide Sum, LoopForceOf, StepHandler, AskToken, HandlerForce;
  }

  lemma NewLoopForce(k: Core)
    ensures Sum(k.loops + [NEW_LOOP], LoopForceOf(k.retries)) == Sum(k.loops, LoopForceOf(k.retries))
  {
    SumAppend(k.loops, NEW_LOOP, LoopForceOf(k.retries));
  }

  // ---------------------------------------------------------------------
  // The bound
  // ---------------------------------------------------------------------

  /** The first start or restart command has been accepted and has not flushed
      the cell yet. */
  predicate FirstFlush(s: Sys) {
    s.seen.starts == 1 && s.handler.Flush? && StartsJob(s.handler.cmd)
  }

  predicate Bounded(s: Sys) {
    && (InStartup(s.sched) ==> s.seen.starts == 0)
    && (if s.seen.starts == 0 then Pressure(s) == 0
        else if FirstFlush(s) then Pressure(s) <= HandlerForce(s.handler)
        else Pressure(s) + Cell(s) <= s.seen.starts)
  }

  lemma StartBounded(s: Sys)
    requires Bounded(s) && StepStart(s).Some?
    ensures Bounded(StepStart(s).value)
  {
    StartFrame(s);
    StartAsks(s);
    NewLoopForce(s.core);
    hide Sum, LoopForceOf, StepStart, AskToken, HandlerForce;
  }

  lemma StartAsks(s: Sys)
    requires StepStart(s).Some?
    ensures AskToken(s.sched) == AskToken(StepStart(s).value.sched) == 0
    ensures StepStart(s).value.sched.SelectMsg? || Unlaunched(s.sched) || s.sched.Scheduling?
  {
  }

  predicate InStartup(pc: SchedPc) {
    Unlaunched(pc) || pc.Scheduling? || pc.Unlocking?
  }

  lemma EasedBounded(s: Sys, s': Sys)
    requires Bounded(s) && Eases(s, s') && s'.seen.starts == s.seen.starts && s'.handler == s.handler
    requires InStartup(s'.sched) ==> InStartup(s.sched)
    ensures Bounded(s')
  {
    hide Pressure, HandlerForce;
  }

  lemma SchedBounded(s: Sys, move: SchedMove)
    requires Bounded(s) && StepSched(s, move).Some?
    ensures Bounded(StepSched(s, move).value) && StepSched(s, move).value.seen.early == s.seen.early
  {
    hide Pressure, StepSched, Bounded;
    SchedEases(s, move);
    SchedFrame(s, move);
    EasedBounded(s, StepSched(s, move).value);
  }

  /** Every step keeps the bound, unless it accepts a start or restart command
      before start-up. */
  lemma NextBounded(s: Sys, lbl: Label)
    requires Inv(s) && s.core.cap == 0 && Bounded(s) && Next(s, lbl).Some? && Next(s, lbl).value.seen.early == 0
    ensures Bounded(Next(s, lbl).value) && s.seen.early == 0
  {
    assert StartupOk(s);
    hide Pressure, Inv, Bounded, StartupOk, Eases, StepLoop, StepRun, StepStart, StepSched, StepFront;
    var s' := Next(s, lbl).value;
    match lbl
    case LoopStep(i, move) =>
      LoopStepFrame(s, i, move);
      LoopEases(s, i, move);
      EasedBounded(s, s');
    case RunStep(i, j, move) =>
      RunStepFrame(s, i, j, move);
      RunEases(s, i, j, move);
      EasedBounded(s, s');
    case StartStep => StartBounded(s); StartFrame(s);
    case SchedStep(move) => SchedBounded(s, move);
    case FrontStep(move) => FrontBounded(s, move);
  }

  lemma HandlerBounded(s: Sys)
    requires Bounded(s) && StepHandler(s).Some?
    ensures Bounded(StepHandler(s).value)
  {
    HandlerEases(s);
    hide Pressure, StepHandler;
  }

  lemma InjectBounded(s: Sys, c: Ctrl)
    requires Bounded(s) && StepFront(s, Inject(c)).Some?
    ensures Bounded(StepFront(s, Inject(c)).value)
  {
    SumAppend(s.ctrl, c, CtrlForce);
    hide Sum, AskToken, HandlerForce;
  }

  lemma FrontBounded(s: Sys, move: FrontMove)
    requires StartupOk(s) && Bounded(s) && StepFront(s, move).Some? && StepFront(s, move).value.seen.early == 0
    ensures Bounded(StepFront(s, move).value) && s.seen.early == 0
  {
    match move
    case Advance =>
      hide Bounded, StepHandler;
      HandlerBounded(s);
    case Accept(cmd) =>
      hide Bounded, StartupOk;
      AcceptBounded(s, cmd);
    case Inject(c) =>
      hide Bounded;
      InjectBounded(s, c);
    case _ => hide Sum, AskToken;
  }

  lemma AcceptBounded(s: Sys, cmd: HttpCmd)
    requires StartupOk(s) && Bounded(s)
    requires StepFront(s, Accept(cmd)).Some? && StepFront(s, Accept(cmd)).value.seen.early == 0
    ensures Bounded(StepFront(s, Accept(cmd)).value) && s.seen.early == 0
  {
    hide Sum, AskToken;
  }

  lemma {:induction false} InterleaveBounded(s: Sys, ls: seq<Label>)
    requires Inv(s) && s.core.cap == 0 && Bounded(s)
    requires Interleave(s, ls).Some? && Interleave(s, ls).value.seen.early == 0
    ensures Bounded(Interleave(s, ls).value) && Interleave(s, ls).value.core.cap == 0
  {
    hide Bounded, Inv, Next;
    if ls != [] {
      var before := ls[..|ls| - 1];
      InterleaveInv(s, before);
      NeverLater(Interleave(s, before).value, ls[|ls| - 1]);
      InterleaveBounded(s, before);
      StepInRange(Interleave(s, before).value, ls[|ls| - 1]);
      NextBounded(Interleave(s, before).value, ls[|ls| - 1]);
    }
  }

  /** A command accepted before start-up stays counted as one. */
  lemma NeverLater(s: Sys, lbl: Label)
    requires Next(s, lbl).Some?
    ensures s.seen.early <= Next(s, lbl).value.seen.early
  {
    hide StepLoop, StepRun, StepStart, StepSched, HandlerReady, NextHandler, Queued;
    match lbl
    case LoopStep(i, move) => LoopStepFrame(s, i, move);
    case RunStep(i, j, move) => RunStepFrame(s, i, j, move);
    case StartStep => StartFrame(s);
    case SchedStep(move) => SchedFrame(s, move);
    case FrontStep(move) =>
  }

  /** Without semaphore slots one accepted start or restart command never
      deadlocks the worker, whatever start-up has scheduled and however many
      control loops there are, unless it was accepted before start-up. */
  lemma NoDeadlockWithoutSlots(retries: int, status: SyncStatus, stime: int, ls: seq<Label>)
    requires Interleave(Boot(0, retries, status, stime), ls).Some?
    requires var s := Interleave(Boot(0, retries, status, stime), ls).value; s.seen.starts <= 1 && s.seen.early == 0
    ensures !Interleave(Boot(0, retries, status, stime), ls).value.stuck
  {
    var s := Boot(0, retries, status, stime);
    BootInv(0, retries, status, stime);
    InterleaveBounded(s, ls);
    hide Interleave, Sum, Inv;
    if Interleave(s, ls).value.stuck {
      StuckAtAddJob(s, ls);
    }
  }
}
