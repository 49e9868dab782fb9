/** What the job-control protocol guarantees in every interleaving, read off its
    inductive invariant: the concurrency limit, quiescence, signalling exactly
    once, and what a completed run has reported.
    Models worker/job.go, lines 95 to 101 and 242 to 328, and worker/worker.go,
    lines 63 to 74.
 */
module Safety {
  import opened JobTypes
  import opened Wrapper
  import opened Sums
  import opened Protocol

  /** All but the last run of a sequence are inactive. */
  lemma {:induction false} OnlyLastActive(runs: seq<Run>)
    requires forall j | 0 <= j < |runs| - 1 :: Quiet(runs[j])
    ensures Sum(runs, ActiveRun) <= 1
    ensures runs == [] || Quiet(runs[|runs| - 1]) ==> Sum(runs, ActiveRun) == 0
  {
    if runs != [] {
      SumZero(runs[..|runs| - 1], ActiveRun);
    }
  }

  /** An active wrapper holds a semaphore slot or bypassed it. */
  lemma ActiveHolds(retries: int, l: Loop)
    requires LoopOk(retries, l)
    ensures ActiveIn(l) <= Held(l) + ActiveBypassedIn(l)
  {
    forall j | 0 <= j < |l.runs| ensures ActiveRun(l.runs[j]) <= HeldRun(l.runs[j]) + ActiveBypassedRun(l.runs[j]) {
      assert RunOk(retries, l.runs[j]);
    }
    SumLe(l.runs, ActiveRun, HeldRun, ActiveBypassedRun);
  }

  /** The concurrency limit, for any number of control loops on one semaphore:
      the slots held are exactly the semaphore's length and never exceed its
      capacity; a loop has at most one active wrapper; only force-started runs
      exceed the limit, and each of those was paid for by a force-start command
      its own loop received. */
  lemma ConcurrencyLimit(cap: nat, retries: int, status: SyncStatus, stime: int, ls: seq<Label>)
    requires Interleave(Boot(cap, retries, status, stime), ls).Some?
    ensures var k := Interleave(Boot(cap, retries, status, stime), ls).value.core;
            && k.sem == Sum(k.loops, Held) <= cap
            && Sum(k.loops, ActiveIn) <= cap + Sum(k.loops, ActiveBypassedIn)
            && forall i | 0 <= i < |k.loops| ::
                 && ActiveIn(k.loops[i]) <= 1
                 && Bypassed(k.loops[i]) + (if k.loops[i].bypass then 1 else 0) <= k.loops[i].forced
  {
    var s := Interleave(Boot(cap, retries, status, stime), ls).value;
    BootInv(cap, retries, status, stime);
    InterleaveInv(Boot(cap, retries, status, stime), ls);
    SameConfig(Boot(cap, retries, status, stime), ls);
    hide Interleave, Sum;
    forall i | 0 <= i < |s.core.loops|
      ensures ActiveIn(s.core.loops[i]) <= 1
      ensures ActiveIn(s.core.loops[i]) <= Held(s.core.loops[i]) + ActiveBypassedIn(s.core.loops[i])
    {
      OnlyLastActive(s.core.loops[i].runs);
      ActiveHolds(s.core.retries, s.core.loops[i]);
    }
    SumLe(s.core.loops, ActiveIn, Held, ActiveBypassedIn);
  }

  lemma {:induction false} SameConfig(s: Sys, ls: seq<Label>)
    requires Interleave(s, ls).Some?
    ensures var k := Interleave(s, ls).value.core; k.cap == s.core.cap && k.retries == s.core.retries
  {
    if ls != [] {
      SameConfig(s, ls[..|ls| - 1]);
      StepInRange(Interleave(s, ls[..|ls| - 1]).value, ls[|ls| - 1]);
    }
  }

  // ---------------------------------------------------------------------
  // Control actions worker.go never sends
  // ---------------------------------------------------------------------

  predicate Holds(pc: LoopPc, c: Ctrl) {
    (pc.GotWaiting? || pc.Killing? || pc.Awaiting? || pc.GotIdle?) && pc.c == c
  }

  predicate Foreign(c: Ctrl) {
    c == JobPing || c == JobDisable
  }

  /** The control action is nowhere: not queued, not in the handler's hands, not
      in a loop's. */
  ghost predicate Absent(s: Sys, c: Ctrl) {
    && c !in s.ctrl
    && s.handler != Send(c)
    && forall i | 0 <= i < |s.core.loops| :: !Holds(s.core.loops[i].pc, c)
  }

  ghost predicate NoneAbandoned(s: Sys) {
    forall i | 0 <= i < |s.core.loops| :: !s.core.loops[i].abandoned
  }

  /** One control loop, once start-up has launched it, and an enabled state. */
  ghost predicate NeverDisabled(s: Sys) {
    && s.state != StateDisabled
    && |s.core.loops| == (if Unlaunched(s.sched) then 0 else 1)
    && (Unlaunched(s.sched) ==> s.sched.status != Disabled)
  }

  /** What the absence of the two actions keeps true. */
  ghost predicate Spared(s: Sys, c: Ctrl) {
    && Absent(s, c)
    && (c == JobPing ==> NoneAbandoned(s))
    && (c == JobDisable ==> NeverDisabled(s))
  }

  /** A loop that does not have the action in its hands. */
  predicate LoopSpared(l: Loop, c: Ctrl) {
    !Holds(l.pc, c) && (c == JobPing ==> !l.abandoned)
  }

  lemma ActSpared(l: Loop, state: JobState, c: Ctrl)
    requires Foreign(c) && LoopSpared(l, c) && LoopAfterAct(l, state).Some?
    ensures LoopSpared(LoopAfterAct(l, state).value.0, c)
    ensures c == JobDisable && state != StateDisabled ==> LoopAfterAct(l, state).value.1 != StateDisabled
  {
  }

  lemma LoopMoveSpared(s: Sys, i: nat, move: LoopMove, c: Ctrl)
    requires Foreign(c) && i < |s.core.loops| && LoopSpared(s.core.loops[i], c) && c !in s.ctrl
    requires StepLoop(s, i, move).Some?
    ensures var s' := StepLoop(s, i, move).value;
            && i < |s'.core.loops| && LoopSpared(s'.core.loops[i], c)
            && (c == JobDisable && s.state != StateDisabled ==> s'.state != StateDisabled)
  {
    if move.Act? {
      hide LoopAfterAct, LoopSpared;
      ActSpared(s.core.loops[i], s.state, c);
    } else {
      hide LoopAfterAct;
    }
  }

  lemma LoopStepSpared(s: Sys, i: nat, move: LoopMove, c: Ctrl)
    requires Foreign(c) && Spared(s, c) && i < |s.core.loops| && StepLoop(s, i, move).Some?
    ensures Spared(StepLoop(s, i, move).value, c)
  {
    hide StepLoop, Holds;
    LoopStepFrame(s, i, move);
    LoopMoveSpared(s, i, move, c);
  }

  lemma RunStepSpared(s: Sys, i: nat, j: nat, move: RunMove, c: Ctrl)
    requires Foreign(c) && Spared(s, c) && StepRun(s, i, j, move).Some?
    ensures Spared(StepRun(s, i, j, move).value, c)
  {
    hide StepRun, Holds;
    RunStepFrame(s, i, j, move);
  }

  lemma StartStepSpared(s: Sys, c: Ctrl)
    requires Foreign(c) && Spared(s, c) && StepStart(s).Some?
    ensures Spared(StepStart(s).value, c)
  {
    StartFrame(s);
    assert !Holds(NEW_LOOP.pc, c);
    hide StepStart, Holds;
  }

  lemma SchedStepSpared(s: Sys, move: SchedMove, c: Ctrl)
    requires Foreign(c) && Spared(s, c) && StepSched(s, move).Some?
    ensures Spared(StepSched(s, move).value, c)
  {
    hide StepSched, Holds;
    SchedFrame(s, move);
  }

  lemma HandlerSpared(s: Sys, c: Ctrl)
    requires Foreign(c) && Spared(s, c) && StepHandler(s).Some?
    ensures Spared(StepHandler(s).value, c)
  {
    var s' := StepHandler(s).value;
    assert s'.handler != Send(c);
    assert !Holds(NEW_LOOP.pc, c);
    hide StepHandler, Holds;
  }

  lemma FrontStepSpared(s: Sys, move: FrontMove, c: Ctrl)
    requires Foreign(c) && Spared(s, c) && StepFront(s, move).Some? && move != Inject(c)
    ensures Spared(StepFront(s, move).value, c)
  {
    hide StepHandler, Holds;
    if move.Advance? {
      HandlerSpared(s, c);
    }
  }

  lemma NextSpared(s: Sys, lbl: Label, c: Ctrl)
    requires Foreign(c) && Spared(s, c) && Next(s, lbl).Some? && lbl != FrontStep(Inject(c))
    ensures Spared(Next(s, lbl).value, c)
  {
    StepInRange(s, lbl);
    hide Spared, StepLoop, StepRun, StepStart, StepSched, StepFront;
    match lbl
    case LoopStep(i, move) => LoopStepSpared(s, i, move, c);
    case RunStep(i, j, move) => RunStepSpared(s, i, j, move, c);
    case StartStep => StartStepSpared(s, c);
    case SchedStep(move) => SchedStepSpared(s, move, c);
    case FrontStep(move) => FrontStepSpared(s, move, c);
  }

  lemma {:induction false} InterleaveSpared(s: Sys, ls: seq<Label>, c: Ctrl)
    requires Foreign(c) && Spared(s, c) && Interleave(s, ls).Some? && FrontStep(Inject(c)) !in ls
    ensures Spared(Interleave(s, ls).value, c)
  {
    if ls != [] {
      InterleaveSpared(s, ls[..|ls| - 1], c);
      hide Spared, Next;
      NextSpared(Interleave(s, ls[..|ls| - 1]).value, ls[|ls| - 1], c);
    }
  }

  /** A worker that starts up enabled and is sent no jobDisable, as worker.go
      sends none, runs exactly one control loop from start-up on, for ever. */
  lemma OneLoop(cap: nat, retries: int, status: SyncStatus, stime: int, ls: seq<Label>)
    requires status != Disabled && FrontStep(Inject(JobDisable)) !in ls
    requires Interleave(Boot(cap, retries, status, stime), ls).Some?
    ensures var s := Interleave(Boot(cap, retries, status, stime), ls).value;
            |s.core.loops| == (if Unlaunched(s.sched) then 0 else 1) && s.state != StateDisabled
  {
    InterleaveSpared(Boot(cap, retries, status, stime), ls, JobDisable);
  }

  /** Quiescence, under the commands worker.go sends and jobDisable: a loop that
      waits for a command, is about to read the state, or has returned has no
      active wrapper, so every active wrapper belongs to a loop the wait group
      counts, and when the wait group lets `Halt` through no sync is running. */
  lemma Quiescence(cap: nat, retries: int, status: SyncStatus, stime: int, ls: seq<Label>)
    requires Interleave(Boot(cap, retries, status, stime), ls).Some? && FrontStep(Inject(JobPing)) !in ls
    ensures var k := Interleave(Boot(cap, retries, status, stime), ls).value.core;
            && (forall i | 0 <= i < |k.loops| ::
                  && (AtRest(k.loops[i].pc) ==> ActiveIn(k.loops[i]) == 0)
                  && ActiveIn(k.loops[i]) <= Counted(k.loops[i]))
            && k.jobsDone == Sum(k.loops, Counted) >= Sum(k.loops, ActiveIn)
            && (k.jobsDone == 0 ==> Sum(k.loops, ActiveIn) == 0)
  {
    var s := Interleave(Boot(cap, retries, status, stime), ls).value;
    BootInv(cap, retries, status, stime);
    InterleaveInv(Boot(cap, retries, status, stime), ls);
    InterleaveSpared(Boot(cap, retries, status, stime), ls, JobPing);
    hide Interleave, Sum;
    var k := s.core;
    forall i | 0 <= i < |k.loops|
      ensures AtRest(k.loops[i].pc) ==> ActiveIn(k.loops[i]) == 0
      ensures ActiveIn(k.loops[i]) <= Counted(k.loops[i])
    {
      assert LoopOk(k.retries, k.loops[i]);
      OnlyLastActive(k.loops[i].runs);
    }
    SumLe(k.loops, ActiveIn, Counted, ActiveNone);
    SumZero(k.loops, ActiveNone);
  }

  function ActiveNone(l: Loop): nat { 0 }

  /** Every `runJob` goroutine ever spawned closes its `kill` at most once and
      signals its `jobDone` at most once, by closing it or by sending on it, and
      does so exactly when its wrapper is over; a run that ended by closing has
      reported a word of the message language, one that ended by sending was
      killed before it reported anything. */
  lemma SignalsOnce(cap: nat, retries: int, status: SyncStatus, stime: int, ls: seq<Label>, i: nat, j: nat)
    requires Interleave(Boot(cap, retries, status, stime), ls).Some?
    requires var k := Interleave(Boot(cap, retries, status, stime), ls).value.core;
             i < |k.loops| && j < |k.loops[i].runs|
    ensures var r := Interleave(Boot(cap, retries, status, stime), ls).value.core.loops[i].runs[j];
            && r.kills <= 1
            && r.closes + r.sends == (if Quiet(r) then 1 else 0)
            && (r.closes == 1 ==> InLanguage(retries, r.trace))
            && (r.sends == 1 ==> r.trace == [] && r.kills == 1)
  {
    BootInv(cap, retries, status, stime);
    InterleaveInv(Boot(cap, retries, status, stime), ls);
    SameConfig(Boot(cap, retries, status, stime), ls);
    var k := Interleave(Boot(cap, retries, status, stime), ls).value.core;
    assert LoopOk(k.retries, k.loops[i]) && RunOk(k.retries, k.loops[i].runs[j]);
  }
}
