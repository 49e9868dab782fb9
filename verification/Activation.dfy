/** Activation tokens: every right to start one more sync run, wherever it is
    on its way from the schedule, through the control channel and a run, back
    to the schedule. Counting them shows when `AddJob` can meet an occupied
    cell, which is the worker's self-deadlock.
    Models worker/job.go, lines 242 to 328, worker/worker.go, lines 63 to 243,
    and worker/schedule.go, lines 29 to 40.
 */
module Activation {
  import opened JobTypes
  import opened Wrapper
  import opened Sums
  import opened Protocol
  import opened Launches
  import S = Schedule

  /** A run that may still report a message asking to be scheduled. */
  function RunToken(retries: int, r: Run): nat {
    match r.phase
    case Selecting => 1
    case Wrapping(pc) => if Pending(retries, pc) then 1 else 0
    case _ => 0
  }

  /** A loop that is about to spawn a run. In the wide count every loop on its
      way to reading the state counts; in the narrow one, only if the state is
      ready, which is exact as long as no other loop changes the state. */
  function PcToken(pc: LoopPc, ready: bool, wide: bool): nat {
    match pc
    case Launched => if wide || ready then 1 else 0
    case Top => if wide || ready then 1 else 0
    case GotWaiting(c) => if c == JobRestart then 1 else 0
    case Killing(c) => if c == JobRestart then 1 else 0
    case Awaiting(c) => if c == JobRestart then 1 else 0
    case GotIdle(c) => CtrlToken(c, wide)
    case _ => 0
  }

  function CtrlToken(c: Ctrl, wide: bool): nat {
    if StartsRun(c) || (wide && c == JobStop) then 1 else 0
  }

  function MsgToken(m: JobMessage): nat {
    if m.schedule then 1 else 0
  }

  function CellToken(q: S.Slot): nat {
    if q.sched then 1 else 0
  }

  function SchedToken(pc: SchedPc): nat {
    match pc
    case GotMsg(m) => MsgToken(m)
    case NotReady(m) => MsgToken(m)
    case Accepted(m) => MsgToken(m)
    case Popped => 1
    case Scheduling(_) => 1
    case _ => if Unlaunched(pc) then BootGrant(pc.status) else 0
  }

  function CmdToken(cmd: HttpCmd, wide: bool): nat {
    if cmd.CmdStart? || cmd.CmdRestart? || (wide && cmd.CmdStop?) then 1 else 0
  }

  function HandlerToken(pc: HandlerPc, wide: bool): nat {
    match pc
    case Flush(cmd) => CmdToken(cmd, wide)
    case Check(cmd) => CmdToken(cmd, wide)
    case Send(c) => CtrlToken(c, wide)
    case _ => 0
  }

  function RunTokenOf(retries: int): Run -> nat { r => RunToken(retries, r) }

  function LoopToken(retries: int, ready: bool, wide: bool, l: Loop): nat {
    Sum(l.runs, RunTokenOf(retries)) + PcToken(l.pc, ready, wide)
  }

  function LoopTokenOf(retries: int, ready: bool, wide: bool): Loop -> nat {
    l => LoopToken(retries, ready, wide, l)
  }

  function CtrlTokenOf(wide: bool): Ctrl -> nat { c => CtrlToken(c, wide) }

  function CoreTokens(k: Core, ready: bool, wide: bool): nat {
    Sum(k.loops, LoopTokenOf(k.retries, ready, wide))
  }

  function Tokens(s: Sys, wide: bool): nat {
    CellToken(s.slot)
    + Sum(s.ctrl, CtrlTokenOf(wide))
    + Sum(s.mgr, MsgToken)
    + CoreTokens(s.core, s.state == StateReady, wide)
    + SchedToken(s.sched)
    + HandlerToken(s.handler, wide)
  }

  /** What the accepted commands have granted: one token per start or restart
      command; in the wide count also one per stop command and per loop. */
  function Granted(s: Sys, wide: bool): nat {
    s.seen.starts + if wide then s.seen.stops + |s.core.loops| else 0
  }

  /** What start-up grants: the first schedule, unless disabled or paused. */
  function BootGrant(status: SyncStatus): nat {
    if status == Disabled || status == Paused then 0 else 1
  }

  // ---------------------------------------------------------------------
  // No step makes a token
  // ---------------------------------------------------------------------

  lemma WrapToken(s: Sys, r: Run, choice: Choice)
    requires RunOk(s.core.retries, r) && WrapAfter(s, r, choice).Some?
    ensures RunToken(s.core.retries, WrapAfter(s, r, choice).value) + Sum(Emitted(r.phase.pc), MsgToken)
            <= RunToken(s.core.retries, r)
  {
    StepKeepsShape(s.core.retries, r.phase.pc, choice, r.trace);
    var sent := Emitted(r.phase.pc);
    assert sent != [] ==> sent[..0] == [];
  }

  lemma RunAfterToken(retries: int, r: Run, move: RunMove, bypass: bool)
    requires RunOk(retries, r) && RunAfter(r, move, bypass).Some?
    ensures RunToken(retries, RunAfter(r, move, bypass).value) <= RunToken(retries, r)
  {
  }

  lemma RunTokenStep(s: Sys, i: nat, j: nat, move: RunMove)
    requires i < |s.core.loops| && j < |s.core.loops[i].runs| && RunOk(s.core.retries, s.core.loops[i].runs[j])
    requires StepRun(s, i, j, move).Some?
    ensures var k, s' := s.core, StepRun(s, i, j, move).value;
            && i < |s'.core.loops| && j < |s'.core.loops[i].runs|
            && RunToken(k.retries, s'.core.loops[i].runs[j]) + Sum(s'.mgr, MsgToken)
               <= RunToken(k.retries, k.loops[i].runs[j]) + Sum(s.mgr, MsgToken)
  {
    hide RunOk, RunToken, RunAfter, Sum;
    var r := s.core.loops[i].runs[j];
    if move.Wrap? {
      WrapToken(s, r, move.choice);
      SumConcat(s.mgr, Emitted(r.phase.pc), MsgToken);
    } else {
      RunAfterToken(s.core.retries, r, move, s.core.loops[i].bypass);
    }
  }

  lemma RunStepTokens(s: Sys, i: nat, j: nat, move: RunMove, wide: bool)
    requires Inv(s) && i < |s.core.loops| && j < |s.core.loops[i].runs| && StepRun(s, i, j, move).Some?
    ensures Tokens(StepRun(s, i, j, move).value, wide) <= Tokens(s, wide)
    ensures Granted(StepRun(s, i, j, move).value, wide) == Granted(s, wide)
  {
    hide StepRun, RunOk, Sum;
    var k := s.core;
    var l := k.loops[i];
    assert LoopOk(k.retries, l) && RunOk(k.retries, l.runs[j]);
    RunTokenStep(s, i, j, move);
    RunStepFrame(s, i, j, move);
    var l' := StepRun(s, i, j, move).value.core.loops[i];
    SumUpdate(l.runs, j, l'.runs[j], RunTokenOf(k.retries));
    SumUpdate(k.loops, i, l', LoopTokenOf(k.retries, s.state == StateReady, wide));
  }

  lemma DoneToken(retries: int, l: Loop, ready: bool, wide: bool)
    requires LoopAfterDone(l).Some?
    ensures LoopToken(retries, ready, wide, LoopAfterDone(l).value) <= LoopToken(retries, ready, wide, l)
  {
    hide Sum;
    var r' := DoneRun(Last(l)).value;
    SumUpdate(l.runs, |l.runs| - 1, r', RunTokenOf(retries));
  }

  lemma ActToken(retries: int, l: Loop, state: JobState, wide: bool)
    requires LoopAfterAct(l, state).Some?
    ensures var (l', state') := LoopAfterAct(l, state).value;
            LoopToken(retries, state' == StateReady, wide, l') <= LoopToken(retries, state == StateReady, wide, l)
  {
    hide Sum;
    if l.pc.Killing? {
      var r' := Last(l).(kills := Last(l).kills + 1);
      SumUpdate(l.runs, |l.runs| - 1, r', RunTokenOf(retries));
    }
  }

  lemma RecvToken(retries: int, l: Loop, c: Ctrl, ready: bool, wide: bool)
    requires LoopAfterRecv(l, c).Some?
    ensures LoopToken(retries, ready, wide, LoopAfterRecv(l, c).value)
            <= LoopToken(retries, ready, wide, l) + CtrlToken(c, wide)
  {
  }

  lemma SpawnToken(retries: int, l: Loop, wide: bool)
    requires l.pc == Top
    ensures LoopToken(retries, true, wide, l.(pc := Waiting, runs := l.runs + [NEW_RUN]))
            <= LoopToken(retries, true, wide, l)
  {
    SumAppend(l.runs, NEW_RUN, RunTokenOf(retries));
  }

  lemma RecvHead(ctrl: seq<Ctrl>, wide: bool)
    requires ctrl != []
    ensures Sum(ctrl, CtrlTokenOf(wide)) == CtrlToken(ctrl[0], wide) + Sum(ctrl[1..], CtrlTokenOf(wide))
  {
    SumHead(ctrl, CtrlTokenOf(wide));
  }

  lemma RecvCtrlToken(s: Sys, i: nat, wide: bool)
    requires i < |s.core.loops| && StepLoop(s, i, RecvCtrl).Some?
    ensures var s', ready := StepLoop(s, i, RecvCtrl).value, s.state == StateReady;
            && i < |s'.core.loops|
            && LoopToken(s.core.retries, ready, wide, s'.core.loops[i]) + Sum(s'.ctrl, CtrlTokenOf(wide))
               <= LoopToken(s.core.retries, ready, wide, s.core.loops[i]) + Sum(s.ctrl, CtrlTokenOf(wide))
  {
    hide LoopAfterRecv, LoopToken, Sum, CtrlToken, CtrlTokenOf;
    RecvToken(s.core.retries, s.core.loops[i], s.ctrl[0], s.state == StateReady, wide);
    RecvHead(s.ctrl, wide);
  }

  /** The tokens of a loop and its runs, in a step that does not receive. */
  lemma OwnToken(s: Sys, i: nat, move: LoopMove, wide: bool)
    requires i < |s.core.loops| && StepLoop(s, i, move).Some? && !move.RecvCtrl?
    ensures var s' := StepLoop(s, i, move).value;
            && i < |s'.core.loops|
            && LoopToken(s.core.retries, s'.state == StateReady, wide, s'.core.loops[i])
               <= LoopToken(s.core.retries, s.state == StateReady, wide, s.core.loops[i])
  {
    var retries, l, ready := s.core.retries, s.core.loops[i], s.state == StateReady;
    hide LoopAfterDone, LoopAfterAct, LoopToken;
    match move
    case CountIn => StandToken(retries, l, Top, ready, wide);
    case CheckState =>
      if ready {
        SpawnToken(retries, l, wide);
      } else {
        StandToken(retries, l, Idle, ready, wide);
      }
    case RecvDone => DoneToken(retries, l, ready, wide);
    case Act => ActToken(retries, l, s.state, wide);
  }

  lemma StandToken(retries: int, l: Loop, pc: LoopPc, ready: bool, wide: bool)
    requires (l.pc.Launched? || l.pc.Top?) && (pc.Top? || pc.Idle?)
    ensures LoopToken(retries, ready, wide, l.(pc := pc)) <= LoopToken(retries, ready, wide, l)
  {
  }

  /** A loop's step moves tokens between the control channel, the loop and its
      runs. */
  lemma LoopTokenStep(s: Sys, i: nat, move: LoopMove, wide: bool)
    requires i < |s.core.loops| && StepLoop(s, i, move).Some?
    ensures var k, s' := s.core, StepLoop(s, i, move).value;
            && i < |s'.core.loops|
            && LoopToken(k.retries, s'.state == StateReady, wide, s'.core.loops[i]) + Sum(s'.ctrl, CtrlTokenOf(wide))
               <= LoopToken(k.retries, s.state == StateReady, wide, k.loops[i]) + Sum(s.ctrl, CtrlTokenOf(wide))
  {
    hide StepLoop, LoopToken, Sum, CtrlTokenOf;
    LoopStepFrame(s, i, move);
    if move.RecvCtrl? {
      RecvCtrlToken(s, i, wide);
    } else {
      OwnToken(s, i, move, wide);
    }
  }

  /** The wide count does not look at the state, and the narrow one only at a
      loop about to read it. */
  lemma StateMatters(retries: int, ready: bool, ready': bool, wide: bool, l: Loop)
    requires wide || ready == ready' || !(l.pc.Launched? || l.pc.Top?)
    ensures LoopToken(retries, ready, wide, l) == LoopToken(retries, ready', wide, l)
  {
    hide Sum;
  }

  /** A loop's step leaves the tokens of the others alone: a doomed loop does not
      touch the state, and does not look at it. */
  lemma OthersTokens(s: Sys, i: nat, move: LoopMove, wide: bool, m: nat)
    requires i < |s.core.loops| && StepLoop(s, i, move).Some? && m < |s.core.loops| && m != i && (wide || Few(s))
    ensures LoopToken(s.core.retries, s.state == StateReady, wide, s.core.loops[m])
            == LoopToken(s.core.retries, StepLoop(s, i, move).value.state == StateReady, wide, s.core.loops[m])
  {
    hide LoopToken, StepLoop;
    LoopStepDoomed(s, i, move);
    StateMatters(s.core.retries, s.state == StateReady, StepLoop(s, i, move).value.state == StateReady, wide,
                 s.core.loops[m]);
  }

  lemma LoopStepTokens(s: Sys, i: nat, move: LoopMove, wide: bool)
    requires i < |s.core.loops| && StepLoop(s, i, move).Some? && (wide || Few(s))
    ensures Tokens(StepLoop(s, i, move).value, wide) <= Tokens(s, wide)
    ensures Granted(StepLoop(s, i, move).value, wide) == Granted(s, wide)
  {
    hide StepLoop, LoopToken, Sum, Few;
    LoopTokenStep(s, i, move, wide);
    LoopStepFrame(s, i, move);
    var k, s' := s.core, StepLoop(s, i, move).value;
    var f := LoopTokenOf(k.retries, s.state == StateReady, wide);
    var g := LoopTokenOf(k.retries, s'.state == StateReady, wide);
    forall m | 0 <= m < |k.loops| && m != i ensures f(k.loops[m]) == g(k.loops[m]) {
      OthersTokens(s, i, move, wide, m);
    }
    SumOthers(k.loops, i, s'.core.loops[i], f, g);
  }

  /** Start-up passes its grant on to the cell. */
  lemma StartParts(s: Sys)
    requires StartupOk(s) && StepStart(s).Some?
    ensures var s' := StepStart(s).value;
            CellToken(s'.slot) + SchedToken(s'.sched) <= CellToken(s.slot) + SchedToken(s.sched)
  {
  }

  lemma NoLoops(k: Core, ready: bool, wide: bool)
    requires k.loops == []
    ensures CoreTokens(k, ready, wide) == 0
  {
  }

  /** Start-up finds no loop and launches at most one. */
  lemma StartCore(s: Sys, wide: bool)
    requires StartupOk(s) && StepStart(s).Some?
    ensures var s' := StepStart(s).value;
            && |s.core.loops| <= |s'.core.loops|
            && CoreTokens(s'.core, s'.state == StateReady, wide)
               <= CoreTokens(s.core, s.state == StateReady, wide) + if wide then |s'.core.loops| - |s.core.loops| else 0
  {
    StartFrame(s);
    hide CoreTokens, StepStart;
    if s.sched.Launching? {
      LaunchTokens(s.core, s.state == StateReady, wide);
      assert |Launch(s.core).loops| == |s.core.loops| + 1;
    } else if s.sched.Fetched? {
      NoLoops(s.core, StepStart(s).value.state == StateReady, wide);
    }
  }

  lemma StartTokens(s: Sys, wide: bool)
    requires StartupOk(s) && StepStart(s).Some?
    ensures Tokens(StepStart(s).value, wide) + Granted(s, wide) <= Tokens(s, wide) + Granted(StepStart(s).value, wide)
  {
    StartParts(s);
    StartFrame(s);
    hide CoreTokens, Sum, StepStart, SchedToken, HandlerToken;
    StartCore(s, wide);
  }

  /** The scheduler's own token, the manager channel's and the cell's. */
  lemma SchedParts(s: Sys, move: SchedMove, wide: bool)
    requires StepSched(s, move).Some?
    ensures var s' := StepSched(s, move).value;
            CellToken(s'.slot) + Sum(s'.ctrl, CtrlTokenOf(wide)) + Sum(s'.mgr, MsgToken) + SchedToken(s'.sched)
            <= CellToken(s.slot) + Sum(s.ctrl, CtrlTokenOf(wide)) + Sum(s.mgr, MsgToken) + SchedToken(s.sched)
  {
    hide Sum, CtrlTokenOf;
    match move
    case RecvMsg => SumHead(s.mgr, MsgToken);
    case Drain =>
      if s.mgr != [] {
        SumHead(s.mgr, MsgToken);
      }
    case SendStart => SendToken(s.ctrl, JobStart, wide);
    case _ =>
  }

  lemma SchedStepTokens(s: Sys, move: SchedMove, wide: bool)
    requires StepSched(s, move).Some?
    ensures Tokens(StepSched(s, move).value, wide) <= Tokens(s, wide)
    ensures Granted(StepSched(s, move).value, wide) == Granted(s, wide)
  {
    hide CoreTokens, Sum, CtrlTokenOf, HandlerToken, StepSched, SchedToken;
    SchedFrame(s, move);
    SchedParts(s, move, wide);
  }

  lemma SendToken(ctrl: seq<Ctrl>, c: Ctrl, wide: bool)
    ensures Sum(ctrl + [c], CtrlTokenOf(wide)) == Sum(ctrl, CtrlTokenOf(wide)) + CtrlToken(c, wide)
  {
    SumAppend(ctrl, c, CtrlTokenOf(wide));
  }

  lemma LaunchTokens(k: Core, ready: bool, wide: bool)
    ensures CoreTokens(Launch(k), ready, wide)
            == CoreTokens(k, ready, wide) + if wide || ready then 1 else 0
  {
    SumAppend(k.loops, NEW_LOOP, LoopTokenOf(k.retries, ready, wide));
  }

  /** The handler passes its command on, through the channel. */
  lemma HandlerPasses(s: Sys, wide: bool)
    requires StepHandler(s).Some?
    ensures var s' := StepHandler(s).value;
            Sum(s'.ctrl, CtrlTokenOf(wide)) + HandlerToken(s'.handler, wide)
            <= Sum(s.ctrl, CtrlTokenOf(wide)) + HandlerToken(s.handler, wide)
  {
    hide Sum;
    match s.handler
    case Send(c) => SumAppend(s.ctrl, c, CtrlTokenOf(wide));
    case HaltSend => SumAppend(s.ctrl, JobHalt, CtrlTokenOf(wide));
    case _ =>
  }

  /** The handler launches a loop only in the disabled state. */
  lemma HandlerTokens(s: Sys, wide: bool)
    requires StepHandler(s).Some?
    ensures Tokens(StepHandler(s).value, wide) + Granted(s, wide)
            <= Tokens(s, wide) + Granted(StepHandler(s).value, wide)
  {
    hide CoreTokens, Sum, HandlerReady, NextHandler, Queued, HandlerToken, SchedToken;
    HandlerPasses(s, wide);
    LaunchTokens(s.core, s.state == StateReady, wide);
  }

  lemma FrontStepTokens(s: Sys, move: FrontMove, wide: bool)
    requires StepFront(s, move).Some?
    ensures Tokens(StepFront(s, move).value, wide) + Granted(s, wide)
            <= Tokens(s, wide) + Granted(StepFront(s, move).value, wide)
  {
    hide CoreTokens, Sum, StepHandler, SchedToken;
    if move.Advance? {
      HandlerTokens(s, wide);
    } else if move.Inject? {
      SumAppend(s.ctrl, move.c, CtrlTokenOf(wide));
    }
  }

  /** No step, of any goroutine, makes a token it has no grant for. */
  lemma NextTokens(s: Sys, lbl: Label, wide: bool)
    requires Inv(s) && Next(s, lbl).Some? && (wide || Few(s))
    ensures Tokens(Next(s, lbl).value, wide) + Granted(s, wide) <= Tokens(s, wide) + Granted(Next(s, lbl).value, wide)
  {
    assert StartupOk(s);
    hide Tokens, Granted, Inv, Few, StartupOk, StepLoop, StepRun, StepStart, StepSched, StepFront;
    match lbl
    case LoopStep(i, move) => StepInRange(s, lbl); LoopStepTokens(s, i, move, wide);
    case RunStep(i, j, move) => StepInRange(s, lbl); RunStepTokens(s, i, j, move, wide);
    case StartStep => StartTokens(s, wide);
    case SchedStep(move) => SchedStepTokens(s, move, wide);
    case FrontStep(move) => FrontStepTokens(s, move, wide);
  }

  lemma BootTokens(cap: nat, retries: int, status: SyncStatus, stime: int, wide: bool)
    ensures var s := Boot(cap, retries, status, stime); Tokens(s, wide) == BootGrant(status) + Granted(s, wide)
  {
  }

  lemma {:induction false} InterleaveTokens(s: Sys, ls: seq<Label>, wide: bool)
    requires Inv(s) && Interleave(s, ls).Some? && (wide || AlwaysFew(s, ls))
    ensures var t := Interleave(s, ls).value; Tokens(t, wide) + Granted(s, wide) <= Tokens(s, wide) + Granted(t, wide)
  {
    hide Tokens, Granted, Inv, Next, Few;
    if ls != [] {
      var before := ls[..|ls| - 1];
      InterleaveInv(s, before);
      InterleaveTokens(s, before, wide);
      NextTokens(Interleave(s, before).value, ls[|ls| - 1], wide);
    }
  }

  /** Conservation. In every interleaving there are at most as many activation
      tokens as start-up and commands have granted: the start-up grant plus the
      accepted start and restart commands, if the job starts up enabled and is
      never told to disable itself, or at most one such command was accepted, or
      only one loop was launched; and in general also one per accepted stop
      command and per loop. */
  lemma TokenBound(cap: nat, retries: int, status: SyncStatus, stime: int, ls: seq<Label>)
    requires Interleave(Boot(cap, retries, status, stime), ls).Some?
    ensures var s := Interleave(Boot(cap, retries, status, stime), ls).value;
            && (Checked(status, ls, s.seen.starts) || |s.core.loops| <= 1 ==>
                  Tokens(s, false) <= BootGrant(status) + s.seen.starts)
            && Tokens(s, true) <= BootGrant(status) + s.seen.starts + s.seen.stops + |s.core.loops|
  {
    hide Tokens;
    var s := Boot(cap, retries, status, stime);
    var t := Interleave(s, ls).value;
    BootInv(cap, retries, status, stime);
    BootTokens(cap, retries, status, stime, true);
    InterleaveTokens(s, ls, true);
    if Checked(status, ls, t.seen.starts) || |t.core.loops| <= 1 {
      CheckedAlwaysFew(cap, retries, status, stime, ls);
      BootTokens(cap, retries, status, stime, false);
      InterleaveTokens(s, ls, false);
    }
  }

  /** A stuck worker is at an `AddJob` that asks for an occupied cell. */
  lemma {:induction false} StuckAtAddJob(s: Sys, ls: seq<Label>)
    requires Inv(s) && !s.stuck && Interleave(s, ls).Some? && Interleave(s, ls).value.stuck
    ensures var t := Interleave(s, ls).value; t.sched.Accepted? && t.sched.m.schedule && t.slot.sched
  {
    hide CoreInv;
    if ls != [] {
      var before := ls[..|ls| - 1];
      var t := Interleave(s, before).value;
      InterleaveInv(s, before);
      if t.stuck {
        StuckAtAddJob(s, before);
      }
      hide Next;
      StuckStep(t, ls[|ls| - 1]);
    }
  }

  lemma StuckStep(s: Sys, lbl: Label)
    requires StartupOk(s) && Next(s, lbl).Some? && Next(s, lbl).value.stuck
    requires s.stuck ==> s.sched.Accepted? && s.sched.m.schedule && s.slot.sched
    ensures var t := Next(s, lbl).value; t.sched.Accepted? && t.sched.m.schedule && t.slot.sched
  {
    hide StepLoop, StepRun, NextHandler, Queued;
    match lbl
    case LoopStep(i, move) => LoopStepFrame(s, i, move);
    case RunStep(i, j, move) => RunStepFrame(s, i, j, move);
    case StartStep =>
    case SchedStep(move) =>
    case FrontStep(move) =>
  }

  /** While start-up and the accepted start and restart commands have granted at
      most one token, `AddJob` never meets an occupied cell: whatever stop, ping,
      halt or disable requests arrive and however the goroutines interleave, the
      worker does not deadlock on its own schedule. */
  lemma NoSelfDeadlock(cap: nat, retries: int, status: SyncStatus, stime: int, ls: seq<Label>)
    requires Interleave(Boot(cap, retries, status, stime), ls).Some?
    requires BootGrant(status) + Interleave(Boot(cap, retries, status, stime), ls).value.seen.starts <= 1
    ensures var s := Interleave(Boot(cap, retries, status, stime), ls).value;
            && !s.stuck
            && !(s.sched.Accepted? && s.sched.m.schedule && s.slot.sched)
  {
    TokenBound(cap, retries, status, stime, ls);
    BootInv(cap, retries, status, stime);
    hide Interleave, Inv;
    if Interleave(Boot(cap, retries, status, stime), ls).value.stuck {
      StuckAtAddJob(Boot(cap, retries, status, stime), ls);
    }
  }

  /** Without a start or restart command the worker never deadlocks on its own
      schedule, whatever start-up found and whatever is injected. */
  lemma NoStartNoDeadlock(cap: nat, retries: int, status: SyncStatus, stime: int, ls: seq<Label>)
    requires Interleave(Boot(cap, retries, status, stime), ls).Some?
    requires Interleave(Boot(cap, retries, status, stime), ls).value.seen.starts == 0
    ensures !Interleave(Boot(cap, retries, status, stime), ls).value.stuck
  {
    NoSelfDeadlock(cap, retries, status, stime, ls);
  }
}
