/** `Halt` sends one halt command and then waits for every control loop, with
    the worker's lock in its hands. With two loops in the wait group it waits for
    ever, and under the commands worker.go sends that takes exactly what it takes
    to have two loops.
    Models worker/worker.go, lines 63 to 74, and worker/job.go, lines 95 to 101
    and 256 to 328.
 */
module HaltHang {
  import opened JobTypes
  import opened Sums
  import opened Protocol
  import opened Safety
  import opened Deadlock
  import opened Overlap

  function HaltOf(c: Ctrl): nat {
    if c == JobHalt then 1 else 0
  }

  /** A loop that has a halt command in its hands. */
  function Leaving(l: Loop): nat {
    if Holds(l.pc, JobHalt) then 1 else 0
  }

  /** A loop in the wait group that has not. */
  function Staying(l: Loop): nat {
    if Counted(l) == 1 && !Holds(l.pc, JobHalt) then 1 else 0
  }

  /** `Halt` waits, and there are fewer halt commands than loops to take them. */
  ghost predicate Hung(s: Sys) {
    s.handler == HaltWait && Sum(s.ctrl, HaltOf) < Sum(s.core.loops, Staying)
  }

  /** Neither of the two actions worker.go never sends is anywhere. */
  ghost predicate Pure(s: Sys) {
    Absent(s, JobPing) && Absent(s, JobDisable)
  }

  predicate NoInject(lbl: Label) {
    !(lbl.FrontStep? && lbl.frontMove.Inject?)
  }

  // ---------------------------------------------------------------------
  // The two actions stay away
  // ---------------------------------------------------------------------

  lemma LoopAbsent(s: Sys, i: nat, move: LoopMove, c: Ctrl)
    requires Foreign(c) && Absent(s, c) && StepLoop(s, i, move).Some?
    ensures Absent(StepLoop(s, i, move).value, c)
  {
    LoopStepFrame(s, i, move);
    LoopHolds(s.core.loops[i], move, s.state, s.ctrl, c);
    hide StepLoop, LoopAfter, Holds;
  }

  lemma LoopHolds(l: Loop, move: LoopMove, state: JobState, ctrl: seq<Ctrl>, c: Ctrl)
    requires Foreign(c) && c !in ctrl && !Holds(l.pc, c) && LoopAfter(l, move, state, ctrl).Some?
    ensures !Holds(LoopAfter(l, move, state, ctrl).value.0.pc, c)
  {
  }

  lemma NextAbsent(s: Sys, lbl: Label, c: Ctrl)
    requires Foreign(c) && Absent(s, c) && NoInject(lbl) && Next(s, lbl).Some?
    ensures Absent(Next(s, lbl).value, c)
  {
    assert !Holds(NEW_LOOP.pc, c);
    hide StepLoop, StepRun, StepStart, StepSched, StepFront, Holds;
    match lbl
    case LoopStep(i, move) => LoopAbsent(s, i, move, c);
    case RunStep(i, j, move) => RunStepFrame(s, i, j, move);
    case StartStep => StartFrame(s);
    case SchedStep(move) => SchedFrame(s, move);
    case FrontStep(move) => FrontAbsent(s, move, c);
  }

  lemma FrontAbsent(s: Sys, move: FrontMove, c: Ctrl)
    requires Foreign(c) && Absent(s, c) && !move.Inject? && StepFront(s, move).Some?
    ensures Absent(StepFront(s, move).value, c)
  {
    assert !Holds(NEW_LOOP.pc, c);
    hide Holds;
  }

  // ---------------------------------------------------------------------
  // Hung for ever
  // ---------------------------------------------------------------------

  /** A loop stays unless it takes a halt command. */
  lemma LoopStays(l: Loop, move: LoopMove, state: JobState, ctrl: seq<Ctrl>)
    requires !Holds(l.pc, JobPing) && !Holds(l.pc, JobDisable) && LoopAfter(l, move, state, ctrl).Some?
    ensures var l' := LoopAfter(l, move, state, ctrl).value.0;
            && Staying(l) <= Staying(l') + (if move.RecvCtrl? then HaltOf(ctrl[0]) else 0)
            && Leaving(l') <= Leaving(l) + (if move.RecvCtrl? then HaltOf(ctrl[0]) else 0)
  {
  }

  lemma LoopSums(s: Sys, i: nat, move: LoopMove)
    requires Pure(s) && StepLoop(s, i, move).Some?
    ensures var s' := StepLoop(s, i, move).value;
            && Sum(s.core.loops, Staying) + Sum(s'.ctrl, HaltOf) <= Sum(s'.core.loops, Staying) + Sum(s.ctrl, HaltOf)
            && Sum(s'.core.loops, Leaving) + Sum(s'.ctrl, HaltOf) <= Sum(s.core.loops, Leaving) + Sum(s.ctrl, HaltOf)
  {
    LoopStepFrame(s, i, move);
    LoopStays(s.core.loops[i], move, s.state, s.ctrl);
    hide StepLoop, LoopAfter, Staying, Leaving, Sum;
    var l' := StepLoop(s, i, move).value.core.loops[i];
    SumUpdate(s.core.loops, i, l', Staying);
    SumUpdate(s.core.loops, i, l', Leaving);
    if move.RecvCtrl? {
      SumHead(s.ctrl, HaltOf);
    }
  }

  /** A run's step does not move its loop. */
  lemma RunSums(s: Sys, i: nat, j: nat, move: RunMove)
    requires StepRun(s, i, j, move).Some?
    ensures Sum(StepRun(s, i, j, move).value.core.loops, Staying) == Sum(s.core.loops, Staying)
    ensures Sum(StepRun(s, i, j, move).value.core.loops, Leaving) == Sum(s.core.loops, Leaving)
  {
    RunStepFrame(s, i, j, move);
    hide StepRun, Sum;
    var l' := StepRun(s, i, j, move).value.core.loops[i];
    SumUpdate(s.core.loops, i, l', Staying);
    SumUpdate(s.core.loops, i, l', Leaving);
  }

  /** The wait does not pass while a loop stays. */
  lemma WaitHolds(s: Sys)
    requires Inv(s) && Hung(s)
    ensures StepHandler(s).None?
  {
    forall l: Loop ensures Staying(l) <= Counted(l) + 0 {
    }
    SumLe(s.core.loops, Staying, Counted, ActiveNone);
    SumZero(s.core.loops, ActiveNone);
  }

  lemma NextHung(s: Sys, lbl: Label)
    requires Inv(s) && Pure(s) && Hung(s) && NoInject(lbl) && Next(s, lbl).Some?
    ensures Hung(Next(s, lbl).value)
    ensures !s.closing ==> !Next(s, lbl).value.closing && Next(s, lbl).value.exit == s.exit
  {
    WaitHolds(s);
    assert StartupOk(s);
    hide Inv, Sum, StepHandler;
    match lbl
    case LoopStep(i, move) => LoopStepFrame(s, i, move); LoopSums(s, i, move); hide StepLoop, Pure;
    case RunStep(i, j, move) => RunStepFrame(s, i, j, move); RunSums(s, i, j, move); hide StepRun, Pure;
    case StartStep => StartFrame(s); hide Pure;
    case SchedStep(move) => SchedFrame(s, move); SumAppend(s.ctrl, JobStart, HaltOf); hide StepSched, Pure;
    case FrontStep(move) => hide Pure;
  }

  /** A hung `Halt` stays hung: whatever happens but an injected action, it never
      passes its wait, and `exit` is never closed by it. */
  lemma {:induction false} StaysHung(s: Sys, ls: seq<Label>)
    requires Inv(s) && Pure(s) && Hung(s) && Interleave(s, ls).Some? && forall lbl | lbl in ls :: NoInject(lbl)
    ensures var t := Interleave(s, ls).value;
            && Hung(t) && Pure(t) && (!s.closing ==> !t.closing && t.exit == s.exit)
  {
    if ls != [] {
      var before, lbl := ls[..|ls| - 1], ls[|ls| - 1];
      StaysHung(s, before);
      InterleaveInv(s, before);
      assert NoInject(lbl);
      hide Inv, Hung, Absent, Next;
      var t := Interleave(s, before).value;
      NextHung(t, lbl);
      NextAbsent(t, lbl, JobPing);
      NextAbsent(t, lbl, JobDisable);
    }
  }

  // ---------------------------------------------------------------------
  // Two loops hang it
  // ---------------------------------------------------------------------

  predicate InHalt(pc: HandlerPc) {
    pc.HaltCheck? || pc.HaltSend? || pc.HaltWait?
  }

  function Bit(b: bool): nat {
    if b then 1 else 0
  }

  /** No halt command comes from nowhere. */
  ghost predicate HaltsCounted(s: Sys) {
    && s.handler != Send(JobHalt)
    && Sum(s.ctrl, HaltOf) + Sum(s.core.loops, Leaving) + Bit(s.handler.HaltCheck? || s.handler.HaltSend?)
       <= s.seen.halts
  }

  /** No call of `Halt` is forgotten. */
  predicate CallsCounted(s: Sys) {
    Bit(s.exit) + Bit(s.closing) + Bit(InHalt(s.handler)) <= s.seen.halts || s.crashed
  }

  /** The halt commands in the channel and in the handler's hands. */
  lemma QueuedHalts(ctrl: seq<Ctrl>, pc: HandlerPc, state: JobState)
    requires pc != Send(JobHalt)
    ensures var pc' := NextHandler(pc, state);
            && pc' != Send(JobHalt)
            && Sum(Queued(ctrl, pc), HaltOf) + Bit(pc'.HaltCheck? || pc'.HaltSend?)
               <= Sum(ctrl, HaltOf) + Bit(pc.HaltCheck? || pc.HaltSend?)
  {
    hide Sum;
    match pc
    case Send(c) => SumAppend(ctrl, c, HaltOf);
    case HaltSend => SumAppend(ctrl, JobHalt, HaltOf);
    case _ =>
  }

  lemma HandlerHalts(s: Sys)
    requires HaltsCounted(s) && StepHandler(s).Some?
    ensures HaltsCounted(StepHandler(s).value)
  {
    QueuedHalts(s.ctrl, s.handler, s.state);
    SumAppend(s.core.loops, NEW_LOOP, Leaving);
    assert Leaving(NEW_LOOP) == 0;
    hide Sum, HandlerReady, NextHandler, Queued, Leaving;
  }

  lemma NextCounted(s: Sys, lbl: Label)
    requires Pure(s) && HaltsCounted(s) && NoInject(lbl) && Next(s, lbl).Some?
    ensures HaltsCounted(Next(s, lbl).value)
  {
    match lbl
    case LoopStep(i, move) => LoopStepFrame(s, i, move); LoopSums(s, i, move); hide StepLoop, Sum, Pure;
    case RunStep(i, j, move) => RunStepFrame(s, i, j, move); RunSums(s, i, j, move); hide StepRun, Sum;
    case StartStep => StartFrame(s); SumAppend(s.core.loops, NEW_LOOP, Leaving); hide StepStart, Sum;
    case SchedStep(move) => SchedFrame(s, move); SumAppend(s.ctrl, JobStart, HaltOf); hide StepSched, Sum;
    case FrontStep(move) =>
      if move.Advance? { HandlerHalts(s); }
      hide StepHandler, Sum;
  }

  lemma NextCalls(s: Sys, lbl: Label)
    requires CallsCounted(s) && Next(s, lbl).Some?
    ensures CallsCounted(Next(s, lbl).value)
  {
    match lbl
    case LoopStep(i, move) => LoopStepFrame(s, i, move); hide StepLoop;
    case RunStep(i, j, move) => RunStepFrame(s, i, j, move); RunCrash(s, i, j, move); hide StepRun;
    case StartStep => StartFrame(s); hide StepStart;
    case SchedStep(move) => SchedFrame(s, move); hide StepSched;
    case FrontStep(move) =>
  }

  lemma RunCrash(s: Sys, i: nat, j: nat, move: RunMove)
    requires StepRun(s, i, j, move).Some?
    ensures s.crashed ==> StepRun(s, i, j, move).value.crashed
  {
    hide RunAfter, WrapAfter;
  }

  lemma {:induction false} InterleaveCounted(cap: nat, retries: int, status: SyncStatus, stime: int, ls: seq<Label>)
    requires Interleave(Boot(cap, retries, status, stime), ls).Some? && forall lbl | lbl in ls :: NoInject(lbl)
    ensures var s := Interleave(Boot(cap, retries, status, stime), ls).value;
            Pure(s) && HaltsCounted(s) && CallsCounted(s)
  {
    if ls != [] {
      var before, lbl := ls[..|ls| - 1], ls[|ls| - 1];
      InterleaveCounted(cap, retries, status, stime, before);
      assert NoInject(lbl);
      hide Absent, HaltsCounted, CallsCounted, Next;
      var t := Interleave(Boot(cap, retries, status, stime), before).value;
      NextCounted(t, lbl);
      NextCalls(t, lbl);
      NextAbsent(t, lbl, JobPing);
      NextAbsent(t, lbl, JobDisable);
    }
  }

  /** The first `Halt` waits for two loops at least. */
  ghost predicate WaitsForTwo(s: Sys) {
    s.handler == HaltWait && s.seen.halts == 1 && !s.crashed && 2 <= Sum(s.core.loops, Counted)
  }

  /** One halt command is one too few for two loops. */
  lemma TwoIsHung(s: Sys)
    requires HaltsCounted(s) && CallsCounted(s) && WaitsForTwo(s)
    ensures Hung(s) && !s.exit && !s.closing
  {
    SumLe(s.core.loops, Counted, Staying, Leaving);
    hide Sum;
  }

  /** Under the commands worker.go sends, a first `Halt` that waits for two
      control loops waits for ever, with the worker's lock in its hands. */
  lemma TwoLoopsHang(cap: nat, retries: int, status: SyncStatus, stime: int, ls: seq<Label>, more: seq<Label>)
    requires Interleave(Boot(cap, retries, status, stime), ls).Some? && forall lbl | lbl in ls + more :: NoInject(lbl)
    requires WaitsForTwo(Interleave(Boot(cap, retries, status, stime), ls).value)
    requires Interleave(Interleave(Boot(cap, retries, status, stime), ls).value, more).Some?
    ensures var t := Interleave(Interleave(Boot(cap, retries, status, stime), ls).value, more).value;
            t.handler == HaltWait && !t.exit && !t.closing
  {
    assert forall lbl | lbl in ls :: lbl in ls + more;
    assert forall lbl | lbl in more :: lbl in ls + more;
    var s := Interleave(Boot(cap, retries, status, stime), ls).value;
    InterleaveCounted(cap, retries, status, stime, ls);
    BootInv(cap, retries, status, stime);
    InterleaveInv(Boot(cap, retries, status, stime), ls);
    hide Interleave, Inv, HaltsCounted, CallsCounted, Absent, WaitsForTwo;
    TwoIsHung(s);
    StaysHung(s, more);
  }

  // ---------------------------------------------------------------------
  // Exactly when
  // ---------------------------------------------------------------------

  /** Both loops of an overlap are in the wait group when `Halt` comes. */
  lemma HaltTwo(cap: nat, retries: int, stime: int) returns (ls: seq<Label>, s: Sys)
    ensures Interleave(Boot(cap, retries, Disabled, stime), ls) == Some(s)
    ensures WaitsForTwo(s) && s.seen.starts == 2 && s.seen.injects == 0
  {
    hide Interleave;
    var s0 := Boot(cap, retries, Disabled, stime);
    ls, s := TwoSyncing(cap, retries, stime);
    var s1 := s.(handler := HaltCheck, seen := s.seen.(halts := 1));
    ls := Go(s0, ls, s, FrontStep(AcceptHalt), s1);
    var s2 := s1.(handler := HaltSend);
    ls := Go(s0, ls, s1, FrontStep(Advance), s2);
    s := s2.(handler := HaltWait, ctrl := [JobHalt]);
    assert s2.ctrl + [JobHalt] == [JobHalt];
    ls := Go(s0, ls, s2, FrontStep(Advance), s);
    assert [SYNCING, SYNCING][..1] == [SYNCING] && [SYNCING][..0] == [];
    assert Sum([SYNCING, SYNCING], Counted) == Sum([SYNCING], Counted) + 1;
  }

  ghost predicate Hangs(cap: nat, retries: int, status: SyncStatus, stime: int, starts: nat, ls: seq<Label>) {
    var s := Interleave(Boot(cap, retries, status, stime), ls);
    && s.Some? && s.value.seen.starts <= starts && WaitsForTwo(s.value)
    && forall lbl | lbl in ls :: NoInject(lbl)
  }

  /** Exactly when a first `Halt` can come to wait for two loops, and so for ever:
      at most `starts` start or restart commands suffice if and only if the job
      starts up disabled and there are two of them. */
  lemma HaltHangIff(cap: nat, retries: int, status: SyncStatus, stime: int, starts: nat)
    ensures (exists ls :: Hangs(cap, retries, status, stime, starts, ls)) <==> status == Disabled && 2 <= starts
  {
    if status == Disabled && 2 <= starts {
      var ls, s := HaltTwo(cap, retries, stime);
      forall lbl | lbl in ls ensures NoInject(lbl) {
        if !NoInject(lbl) {
          NoInjects(Boot(cap, retries, status, stime), ls, lbl.frontMove.c);
        }
      }
      assert Hangs(cap, retries, status, stime, starts, ls);
    } else {
      forall ls: seq<Label> ensures !Hangs(cap, retries, status, stime, starts, ls) {
        if Hangs(cap, retries, status, stime, starts, ls) {
          assert NoInject(FrontStep(Inject(JobDisable))) == false;
          SoloLoop(cap, retries, status, stime, ls);
          CountedAtMost(Interleave(Boot(cap, retries, status, stime), ls).value.core.loops);
        }
      }
    }
  }

  lemma CountedAtMost(loops: seq<Loop>)
    requires |loops| <= 1
    ensures Sum(loops, Counted) <= 1
  {
  }
}
