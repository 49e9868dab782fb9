/** Commands that arrive before start-up. No control loop exists yet, so the
    control channel takes one of them; the handler of a second one blocks with
    the worker's lock in its hands, and `runSchedule` never gets it.
    Models worker/worker.go, lines 57 to 74, 86 to 133 and 163 to 185.
 */
module Startup {
  import opened JobTypes
  import opened Protocol
  import opened Deadlock

  /** The lock is held for a command that goes through the control channel. */
  predicate InHand(pc: HandlerPc) {
    || ((pc.Flush? || pc.Check?) && (StartsJob(pc.cmd) || pc.cmd.CmdStop?))
    || pc.Send? || pc.HaltCheck? || pc.HaltSend?
  }

  /** Start-up waits for a lock whose holder waits for room in the channel. */
  predicate Blocked(s: Sys) {
    s.sched.AwaitLock? && CTRL_CAP <= |s.ctrl| && InHand(s.handler)
  }

  /** The requests so far that go through the control channel. */
  function Requests(s: Sys): nat {
    s.seen.starts + s.seen.stops + s.seen.halts + s.seen.injects
  }

  /** Before start-up every request is in the channel or in hand. */
  predicate Waiting(s: Sys) {
    s.sched.AwaitLock? ==> |s.ctrl| + (if InHand(s.handler) then 1 else 0) <= Requests(s)
  }

  lemma HandlerWaiting(s: Sys)
    requires Waiting(s) && StepHandler(s).Some?
    ensures Waiting(StepHandler(s).value)
  {
  }

  lemma NextWaiting(s: Sys, lbl: Label)
    requires StartupOk(s) && Waiting(s) && Next(s, lbl).Some?
    ensures Waiting(Next(s, lbl).value)
  {
    hide StepLoop, StepRun, StepHandler, StepSched;
    match lbl
    case LoopStep(i, move) => LoopStepFrame(s, i, move);
    case RunStep(i, j, move) => RunStepFrame(s, i, j, move);
    case StartStep => hide Requests;
    case SchedStep(move) => SchedFrame(s, move);
    case FrontStep(move) => if move.Advance? { HandlerWaiting(s); }
  }

  lemma {:induction false} InterleaveWaiting(cap: nat, retries: int, status: SyncStatus, stime: int, ls: seq<Label>)
    requires Interleave(Boot(cap, retries, status, stime), ls).Some?
    ensures Waiting(Interleave(Boot(cap, retries, status, stime), ls).value)
  {
    if ls != [] {
      var s0, before := Boot(cap, retries, status, stime), ls[..|ls| - 1];
      InterleaveWaiting(cap, retries, status, stime, before);
      BootInv(cap, retries, status, stime);
      InterleaveInv(s0, before);
      var s := Interleave(s0, before).value;
      assert StartupOk(s);
      hide Inv, StartupOk, Waiting, Next;
      NextWaiting(s, ls[|ls| - 1]);
    }
  }

  // ---------------------------------------------------------------------
  // Blocked for ever
  // ---------------------------------------------------------------------

  lemma NextBlocked(s: Sys, lbl: Label)
    requires StartupOk(s) && Blocked(s) && Next(s, lbl).Some?
    ensures Blocked(Next(s, lbl).value)
  {
    hide StepLoop, StepRun, StepSched;
    match lbl
    case LoopStep(i, move) => LoopStepFrame(s, i, move);
    case RunStep(i, j, move) => RunStepFrame(s, i, j, move);
    case StartStep =>
    case SchedStep(move) => SchedFrame(s, move);
    case FrontStep(move) =>
  }

  lemma {:induction false} StaysBlocked(s: Sys, ls: seq<Label>)
    requires Inv(s) && Blocked(s) && Interleave(s, ls).Some?
    ensures Blocked(Interleave(s, ls).value)
  {
    if ls != [] {
      var before := ls[..|ls| - 1];
      StaysBlocked(s, before);
      InterleaveInv(s, before);
      var t := Interleave(s, before).value;
      assert StartupOk(t);
      hide Inv, StartupOk, Blocked, Next;
      NextBlocked(t, ls[|ls| - 1]);
    }
  }

  // ---------------------------------------------------------------------
  // Not blocked
  // ---------------------------------------------------------------------

  /** How far the holder of the lock is from releasing it. */
  function Rank(pc: HandlerPc): nat {
    match pc
    case Free => 0
    case Send(_) => 1
    case HaltWait => 1
    case HaltSend => 2
    case Check(_) => 2
    case Flush(_) => 3
    case HaltCheck => 3
  }

  /** The holder of the lock can take a step towards releasing it. */
  lemma HandlerMoves(s: Sys)
    requires Inv(s) && s.sched.AwaitLock? && !Blocked(s) && s.handler != Free
    ensures StepHandler(s).Some?
    ensures var s' := StepHandler(s).value;
            && Inv(s') && s'.sched == s.sched && s'.crashed == s.crashed
            && !Blocked(s') && Rank(s'.handler) < Rank(s.handler)
  {
    assert s.core.jobsDone == 0;
    assert StepHandler(s).Some?;
    HandlerStepInv(s);
    hide Inv;
  }

  /** From a state that is not blocked start-up can get the lock. */
  lemma {:induction false} CanStart(s0: Sys, ls: seq<Label>, s: Sys) returns (ls': seq<Label>)
    requires Interleave(s0, ls) == Some(s) && Inv(s) && s.sched.AwaitLock? && !Blocked(s) && !s.crashed
    ensures Interleave(s0, ls').Some? && !Interleave(s0, ls').value.sched.AwaitLock?
    decreases Rank(s.handler)
  {
    hide Interleave, Inv, Blocked;
    if s.handler == Free {
      ls' := Go(s0, ls, s, StartStep, StepStart(s).value);
    } else {
      HandlerMoves(s);
      hide StepHandler;
      ls' := Go(s0, ls, s, FrontStep(Advance), StepHandler(s).value);
      ls' := CanStart(s0, ls', StepHandler(s).value);
    }
  }

  ghost predicate Starts(s: Sys, ls: seq<Label>) {
    Interleave(s, ls).Some? && !Interleave(s, ls).value.sched.AwaitLock?
  }

  /** Before start-up, in every reachable state: start-up can still happen if and
      only if the state is not blocked. */
  lemma StartsIff(cap: nat, retries: int, status: SyncStatus, stime: int, ls: seq<Label>)
    requires Interleave(Boot(cap, retries, status, stime), ls).Some?
    requires var s := Interleave(Boot(cap, retries, status, stime), ls).value; s.sched.AwaitLock? && !s.crashed
    ensures var s := Interleave(Boot(cap, retries, status, stime), ls).value;
            (exists more :: Starts(s, more)) <==> !Blocked(s)
  {
    BootInv(cap, retries, status, stime);
    InterleaveInv(Boot(cap, retries, status, stime), ls);
    var s := Interleave(Boot(cap, retries, status, stime), ls).value;
    if Blocked(s) {
      forall more: seq<Label> ensures !Starts(s, more) {
        if Starts(s, more) {
          StaysBlocked(s, more);
        }
      }
    } else {
      assert Interleave(s, []) == Some(s);
      var more := CanStart(s, [], s);
      assert Starts(s, more);
    }
  }

  /** Two start commands that come too early. */
  lemma TwoTooEarly(cap: nat, retries: int, status: SyncStatus, stime: int) returns (ls: seq<Label>, s: Sys)
    ensures Interleave(Boot(cap, retries, status, stime), ls) == Some(s)
    ensures Blocked(s) && Requests(s) == 2 && !s.crashed
  {
    var s0 := Boot(cap, retries, status, stime);
    assert Interleave(s0, []) == Some(s0);
    hide Interleave;
    var s1: Sys;
    ls, s1 := EarlyCommand(s0, [], s0, false);
    var cmd := CmdStart(false);
    s := s1.(handler := Flush(cmd), seen := SeenStart(s1.seen, true));
    ls := Go(s0, ls, s1, FrontStep(Accept(cmd)), s);
  }

  /** An interleaving with at most `n` requests that leaves start-up blocked. */
  ghost predicate Hangs(cap: nat, retries: int, status: SyncStatus, stime: int, n: nat, ls: seq<Label>) {
    var s := Interleave(Boot(cap, retries, status, stime), ls);
    s.Some? && Blocked(s.value) && Requests(s.value) <= n
  }

  /** Exactly when start-up can be blocked for ever: by two requests. */
  lemma HangIff(cap: nat, retries: int, status: SyncStatus, stime: int, n: nat)
    ensures (exists ls :: Hangs(cap, retries, status, stime, n, ls)) <==> 2 <= n
  {
    if 2 <= n {
      var ls, s := TwoTooEarly(cap, retries, status, stime);
      assert Hangs(cap, retries, status, stime, n, ls);
    } else {
      forall ls: seq<Label> ensures !Hangs(cap, retries, status, stime, n, ls) {
        if Hangs(cap, retries, status, stime, n, ls) {
          InterleaveWaiting(cap, retries, status, stime, ls);
        }
      }
    }
  }
}
