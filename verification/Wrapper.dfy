/** `runJobWrapper`: one sync run, as a machine over its hook outcomes, channel
    operations and select arms, and the language of messages it reports.
    Models worker/job.go, lines 106 to 240.
 */
module Wrapper {
  import opened JobTypes

  /** Where a sync run stands. `retry` counts the attempts already finished,
      `ok` says whether the provider succeeded, `stop` whether it was killed. */
  datatype Pc =
    | PreJob
    | Test(retry: nat)
    | PreExec(retry: nat)
    | Starting(retry: nat)
    | Running(retry: nat, failed: bool)
    | PostExec(retry: nat, ok: bool, stop: bool)
    | PostHooks(retry: nat, ok: bool, stop: bool)
    | Report(retry: nat, ok: bool, stop: bool)
    | Sending(msg: JobMessage, next: Pc)
    | Done
    | Crashed

  /** What the environment decides at a step. */
  datatype Choice =
    | Proceed
    | HookOk
    | HookErr
    | ProviderStarted
    | SyncDone(ok: bool)
    | Timeout(terminated: bool)
    | Kill(terminated: bool)
    | ReadState(ready: bool)

  const PRE_MSG := JobMessage(PreSyncing, false)
  const SYNC_MSG := JobMessage(Syncing, false)
  const HOOK_FAILURE := JobMessage(Failed, true)

  const START := Sending(PRE_MSG, PreJob)

  /** One step of a sync run whose provider allows `retries` attempts. */
  function Step(retries: int, pc: Pc, c: Choice): (r: Option<Pc>) {
    match (pc, c)
    case (Sending(_, next), Proceed) => Some(next)
    case (PreJob, HookOk) => Some(Test(0))
    case (PreJob, HookErr) => Some(Sending(HOOK_FAILURE, Done))
    case (Test(k), Proceed) => Some(if k < retries then PreExec(k) else Done)
    case (PreExec(k), HookOk) => Some(Sending(SYNC_MSG, Starting(k)))
    case (PreExec(_), HookErr) => Some(Sending(HOOK_FAILURE, Done))
    // The first select: a finished provider is logged with its error's text
    // and put back, so a nil error there is a nil dereference.
    case (Starting(k), ProviderStarted) => Some(Running(k, false))
    case (Starting(k), SyncDone(ok)) => Some(if ok then Crashed else Running(k, true))
    // The second select. A failed Terminate ends the run without a message.
    case (Running(k, failed), SyncDone(ok)) => if failed && ok then None else Some(PostExec(k, ok, false))
    case (Running(k, _), Timeout(terminated)) => Some(if terminated then PostExec(k, false, false) else Done)
    case (Running(k, _), Kill(terminated)) => Some(if terminated then PostExec(k, false, true) else Done)
    case (PostExec(k, ok, stop), HookOk) => Some(PostHooks(k, ok, stop))
    case (PostExec(_, _, _), HookErr) => Some(Sending(HOOK_FAILURE, Done))
    case (PostHooks(k, ok, stop), HookOk) => Some(Report(k, ok, stop))
    case (PostHooks(_, _, _), HookErr) => Some(Sending(HOOK_FAILURE, Done))
    case (Report(k, true, _), ReadState(ready)) => Some(Sending(JobMessage(Success, ready), Done))
    case (Report(k, false, stop), ReadState(ready)) =>
      Some(Sending(JobMessage(Failed, k == retries - 1 && ready), if stop then Done else Test(k + 1)))
    case _ => None
  }

  /** The message a step puts on the manager channel, if any. */
  function Emitted(pc: Pc): seq<JobMessage> {
    if pc.Sending? then [pc.msg] else []
  }

  datatype Outcome = Outcome(pc: Pc, trace: seq<JobMessage>)

  /** Runs a whole sequence of choices; None when one of them is not enabled. */
  function Exec(retries: int, pc: Pc, cs: seq<Choice>): (r: Option<Outcome>)
    decreases |cs|
  {
    if cs == [] then Some(Outcome(pc, []))
    else
      match Step(retries, pc, cs[0])
      case None => None
      case Some(next) =>
        match Exec(retries, next, cs[1..])
        case None => None
        case Some(o) => Some(Outcome(o.pc, Emitted(pc) + o.trace))
  }

  lemma {:induction false} ExecConcat(retries: int, pc: Pc, a: seq<Choice>, b: seq<Choice>)
    requires Exec(retries, pc, a).Some?
    ensures var mid := Exec(retries, pc, a).value;
            Exec(retries, pc, a + b) ==
            match Exec(retries, mid.pc, b)
            case None => None
            case Some(o) => Some(Outcome(o.pc, mid.trace + o.trace))
    decreases |a|
  {
    hide Step, Emitted;
    var mid := Exec(retries, pc, a).value;
    var end := Exec(retries, mid.pc, b);
    if a == [] {
      assert a + b == b;
      assert end.Some? ==> [] + end.value.trace == end.value.trace;
    } else {
      var next := Step(retries, pc, a[0]).value;
      ExecConcat(retries, next, a[1..], b);
      assert (a + b)[1..] == a[1..] + b && (a + b)[0] == a[0] && a + b != [];
      var rest := Exec(retries, next, a[1..]).value;
      assert mid == Outcome(rest.pc, Emitted(pc) + rest.trace);
      if end.Some? {
        Associates(Emitted(pc), rest.trace, end.value.trace);
      }
    }
  }

  lemma Associates(a: seq<JobMessage>, b: seq<JobMessage>, c: seq<JobMessage>)
    ensures a + (b + c) == a + b + c
  {
  }

  // ---------------------------------------------------------------------
  // The language of a run's messages
  // ---------------------------------------------------------------------

  /** `k` attempts that were reported as failed and retried. */
  function Blocks(k: nat): seq<JobMessage> {
    if k == 0 then [] else Blocks(k - 1) + [SYNC_MSG, JobMessage(Failed, false)]
  }

  /** What the last attempt reports. */
  predicate IsTail(t: seq<JobMessage>) {
    || t == [HOOK_FAILURE]
    || t == [SYNC_MSG]
    || (|t| == 2 && t[0] == SYNC_MSG && t[1].status in {Failed, Success})
  }

  ghost predicate Attempts(retries: int, k: nat, tail: seq<JobMessage>, t: seq<JobMessage>) {
    k < retries && IsTail(tail) && t == [PRE_MSG] + Blocks(k) + tail
  }

  /** The messages a completed, non-crashing sync run can report. */
  ghost predicate InLanguage(retries: int, t: seq<JobMessage>) {
    || t == [PRE_MSG, HOOK_FAILURE]
    || (retries <= 0 && t == [PRE_MSG])
    || exists k: nat, tail: seq<JobMessage> :: Attempts(retries, k, tail, t)
  }

  /** What a run standing at `pc` has reported so far. */
  ghost predicate Shape(retries: int, pc: Pc, t: seq<JobMessage>) {
    match pc
    case PreJob => t == [PRE_MSG]
    case Test(k) =>
      if 0 < k == retries then InLanguage(retries, t) else (0 < k ==> k < retries) && t == [PRE_MSG] + Blocks(k)
    case PreExec(k) => k < retries && t == [PRE_MSG] + Blocks(k)
    case Starting(k) => k < retries && t == [PRE_MSG] + Blocks(k) + [SYNC_MSG]
    case Running(k, _) => k < retries && t == [PRE_MSG] + Blocks(k) + [SYNC_MSG]
    case PostExec(k, _, _) => k < retries && t == [PRE_MSG] + Blocks(k) + [SYNC_MSG]
    case PostHooks(k, _, _) => k < retries && t == [PRE_MSG] + Blocks(k) + [SYNC_MSG]
    case Report(k, _, _) => k < retries && t == [PRE_MSG] + Blocks(k) + [SYNC_MSG]
    case Sending(m, next) => !next.Sending? && (m.schedule ==> !Pending(retries, next)) && Shape(retries, next, t + [m])
    case Done => InLanguage(retries, t)
    case Crashed => true
  }

  /** Whether a run standing at `pc` may still send a message that schedules. */
  predicate Pending(retries: int, pc: Pc) {
    match pc
    case Test(k) => k < retries
    case Sending(m, next) => m.schedule || Pending(retries, next)
    case Done => false
    case Crashed => false
    case _ => true
  }

  lemma TailEnds(retries: int, k: nat, tail: seq<JobMessage>, t: seq<JobMessage>)
    requires Attempts(retries, k, tail, t)
    ensures InLanguage(retries, t)
  {
  }

  /** Every step keeps the reported messages in shape, and hands the right to
      schedule over to the message that carries it. */
  lemma StepKeepsShape(retries: int, pc: Pc, c: Choice, t: seq<JobMessage>)
    requires Step(retries, pc, c).Some? && Shape(retries, pc, t)
    ensures Shape(retries, Step(retries, pc, c).value, t + Emitted(pc))
    ensures Pending(retries, Step(retries, pc, c).value) ==> Pending(retries, pc)
    ensures pc.Sending? && pc.msg.schedule ==>
              Pending(retries, pc) && !Pending(retries, Step(retries, pc, c).value)
  {
    StepPending(retries, pc, c, t);
    if pc.Report? {
      ReportShape(retries, pc, c, t);
    } else if c.HookErr? {
      HookErrShape(retries, pc, t);
    } else {
      PlainShape(retries, pc, c, t);
    }
  }

  lemma StepPending(retries: int, pc: Pc, c: Choice, t: seq<JobMessage>)
    requires Step(retries, pc, c).Some? && Shape(retries, pc, t)
    ensures Pending(retries, Step(retries, pc, c).value) ==> Pending(retries, pc)
    ensures pc.Sending? && pc.msg.schedule ==>
              Pending(retries, pc) && !Pending(retries, Step(retries, pc, c).value)
  {
    hide InLanguage, Blocks;
  }

  /** A failing hook is reported with a request to be scheduled, and ends the run. */
  lemma HookErrShape(retries: int, pc: Pc, t: seq<JobMessage>)
    requires Step(retries, pc, HookErr).Some? && Shape(retries, pc, t)
    ensures Shape(retries, Step(retries, pc, HookErr).value, t + Emitted(pc))
  {
    assert t + [] == t;
    match pc
    case PreExec(k) => TailEnds(retries, k, [HOOK_FAILURE], t + [HOOK_FAILURE]);
    case PostExec(k, _, _) => TailEnds(retries, k, [SYNC_MSG, HOOK_FAILURE], t + [HOOK_FAILURE]);
    case PostHooks(k, _, _) => TailEnds(retries, k, [SYNC_MSG, HOOK_FAILURE], t + [HOOK_FAILURE]);
    case _ =>
  }

  /** The report of an attempt ends the run or is one more failed block. */
  lemma ReportShape(retries: int, pc: Pc, c: Choice, t: seq<JobMessage>)
    requires pc.Report? && Step(retries, pc, c).Some? && Shape(retries, pc, t)
    ensures Shape(retries, Step(retries, pc, c).value, t + Emitted(pc))
  {
    assert t + [] == t;
    var m := Step(retries, pc, c).value.msg;
    TailEnds(retries, pc.retry, [SYNC_MSG, m], t + [m]);
    if !m.schedule {
      assert !pc.ok ==> Blocks(pc.retry + 1) == Blocks(pc.retry) + [SYNC_MSG, m];
    }
  }

  lemma PlainShape(retries: int, pc: Pc, c: Choice, t: seq<JobMessage>)
    requires !pc.Report? && !c.HookErr? && Step(retries, pc, c).Some? && Shape(retries, pc, t)
    ensures Shape(retries, Step(retries, pc, c).value, t + Emitted(pc))
  {
    assert t + [] == t;
    if pc.Running? && (c.Timeout? || c.Kill?) {
      TailEnds(retries, pc.retry, [SYNC_MSG], t);
    }
  }

  lemma {:induction false} ExecKeepsShape(retries: int, pc: Pc, cs: seq<Choice>, t: seq<JobMessage>)
    requires Exec(retries, pc, cs).Some? && Shape(retries, pc, t)
    ensures Shape(retries, Exec(retries, pc, cs).value.pc, t + Exec(retries, pc, cs).value.trace)
    decreases |cs|
  {
    if cs == [] {
      assert t + [] == t;
    } else {
      StepKeepsShape(retries, pc, cs[0], t);
      var next := Step(retries, pc, cs[0]).value;
      ExecKeepsShape(retries, next, cs[1..], t + Emitted(pc));
      var o := Exec(retries, next, cs[1..]).value;
      assert t + (Emitted(pc) + o.trace) == t + Emitted(pc) + o.trace;
    }
  }

  /** Soundness: whatever the hooks, the provider, the timeouts and the kills
      do, a sync run that completes has reported a word of the language. */
  lemma TraceSound(retries: int, cs: seq<Choice>)
    requires Exec(retries, START, cs).Some? && Exec(retries, START, cs).value.pc == Done
    ensures InLanguage(retries, Exec(retries, START, cs).value.trace)
  {
    ExecKeepsShape(retries, START, cs, []);
    var o := Exec(retries, START, cs).value;
    assert [] + o.trace == o.trace;
  }

  /** Extends a run from the start by one more choice. */
  lemma Go(retries: int, cs: seq<Choice>, o: Outcome, c: Choice) returns (cs': seq<Choice>, o': Outcome)
    requires Exec(retries, START, cs) == Some(o) && Step(retries, o.pc, c).Some?
    ensures Exec(retries, START, cs') == Some(o')
    ensures o' == Outcome(Step(retries, o.pc, c).value, o.trace + Emitted(o.pc))
  {
    cs' := cs + [c];
    o' := Outcome(Step(retries, o.pc, c).value, o.trace + Emitted(o.pc));
    ExecConcat(retries, START, cs, [c]);
    var next := Step(retries, o.pc, c).value;
    assert Exec(retries, next, [c][1..]) == Some(Outcome(next, []));
    assert Emitted(o.pc) + [] == Emitted(o.pc);
  }

  /** A run that has failed and retried `k` times, at its retry test. */
  lemma {:induction false} ReachTest(retries: int, k: nat) returns (cs: seq<Choice>, o: Outcome)
    requires 0 < k ==> k < retries
    ensures Exec(retries, START, cs) == Some(o) && o == Outcome(Test(k), [PRE_MSG] + Blocks(k))
    decreases k, 0
  {
    assert Exec(retries, START, []) == Some(Outcome(START, []));
    hide Exec;
    if k == 0 {
      cs, o := [], Outcome(START, []);
      cs, o := Go(retries, cs, o, Proceed);
      cs, o := Go(retries, cs, o, HookOk);
    } else {
      cs, o := ReachRunning(retries, k - 1);
      cs, o := Go(retries, cs, o, SyncDone(false));
      cs, o := ReachReport(retries, cs, o);
      cs, o := Go(retries, cs, o, ReadState(false));
      cs, o := Go(retries, cs, o, Proceed);
      assert [PRE_MSG] + Blocks(k - 1) + [SYNC_MSG] + [JobMessage(Failed, false)] == [PRE_MSG] + Blocks(k);
    }
  }

  lemma {:induction false} ReachRunning(retries: int, k: nat) returns (cs: seq<Choice>, o: Outcome)
    requires k < retries
    ensures Exec(retries, START, cs) == Some(o)
    ensures o == Outcome(Running(k, false), [PRE_MSG] + Blocks(k) + [SYNC_MSG])
    decreases k, 1
  {
    hide Exec;
    cs, o := ReachTest(retries, k);
    cs, o := Go(retries, cs, o, Proceed);
    cs, o := Go(retries, cs, o, HookOk);
    cs, o := Go(retries, cs, o, Proceed);
    cs, o := Go(retries, cs, o, ProviderStarted);
  }

  lemma ReachReport(retries: int, cs: seq<Choice>, o: Outcome) returns (cs': seq<Choice>, o': Outcome)
    requires Exec(retries, START, cs) == Some(o) && o.pc.PostExec?
    ensures Exec(retries, START, cs') == Some(o')
    ensures o' == Outcome(Report(o.pc.retry, o.pc.ok, o.pc.stop), o.trace)
  {
    hide Exec;
    cs', o' := Go(retries, cs, o, HookOk);
    cs', o' := Go(retries, cs', o', HookOk);
  }

  /** The last attempt of a run, for each of its endings. */
  lemma ReachTail(retries: int, k: nat, tail: seq<JobMessage>) returns (cs: seq<Choice>, o: Outcome)
    requires k < retries && IsTail(tail)
    ensures Exec(retries, START, cs) == Some(o) && o == Outcome(Done, [PRE_MSG] + Blocks(k) + tail)
  {
    hide Exec;
    if tail == [HOOK_FAILURE] {
      cs, o := ReachTest(retries, k);
      cs, o := Go(retries, cs, o, Proceed);
      cs, o := Go(retries, cs, o, HookErr);
      cs, o := Go(retries, cs, o, Proceed);
    } else {
      cs, o := ReachRunning(retries, k);
      if tail == [SYNC_MSG] {
        cs, o := Go(retries, cs, o, Timeout(false));
      } else if tail[1] == HOOK_FAILURE {
        cs, o := Go(retries, cs, o, SyncDone(false));
        cs, o := Go(retries, cs, o, HookErr);
        cs, o := Go(retries, cs, o, Proceed);
      } else {
        cs, o := Go(retries, cs, o, if tail[1].status == Success then SyncDone(true) else Kill(true));
        cs, o := ReachReport(retries, cs, o);
        cs, o := Go(retries, cs, o, ReadState(tail[1].schedule));
        cs, o := Go(retries, cs, o, Proceed);
      }
      assert o.trace == [PRE_MSG] + Blocks(k) + tail;
    }
  }

  /** Completeness: every word of the language is reported by some run, so the
      language is exactly what a sync run can say. */
  lemma TraceComplete(retries: int, t: seq<JobMessage>) returns (cs: seq<Choice>)
    requires InLanguage(retries, t)
    ensures Exec(retries, START, cs) == Some(Outcome(Done, t))
  {
    var o: Outcome;
    if t == [PRE_MSG, HOOK_FAILURE] {
      cs, o := [], Outcome(START, []);
      cs, o := Go(retries, cs, o, Proceed);
      cs, o := Go(retries, cs, o, HookErr);
      cs, o := Go(retries, cs, o, Proceed);
    } else if retries <= 0 && t == [PRE_MSG] {
      cs, o := ReachTest(retries, 0);
      cs, o := Go(retries, cs, o, Proceed);
    } else {
      var k: nat, tail: seq<JobMessage> :| Attempts(retries, k, tail, t);
      cs, o := ReachTail(retries, k, tail);
    }
    assert o.trace == t;
  }

  lemma {:induction false} BlocksPlain(k: nat)
    ensures |Blocks(k)| == 2 * k
    ensures forall m | m in Blocks(k) :: !m.schedule && m.status in {Syncing, Failed}
  {
    if 0 < k {
      BlocksPlain(k - 1);
    }
  }

  /** What a reader of the manager channel may rely on: a run announces itself
      first and once, succeeds only last, asks to be scheduled only last, and
      reports at most twice per attempt. */
  lemma LanguageFacts(retries: int, t: seq<JobMessage>)
    requires InLanguage(retries, t)
    ensures 1 <= |t| <= if retries <= 0 then 2 else 1 + 2 * retries
    ensures t[0] == JobMessage(PreSyncing, false)
    ensures forall i | 0 < i < |t| :: t[i].status in {Syncing, Failed, Success}
    ensures forall i | 0 <= i < |t| - 1 :: !t[i].schedule && t[i].status != Success
  {
    if t != [PRE_MSG, HOOK_FAILURE] && t != [PRE_MSG] {
      var k: nat, tail: seq<JobMessage> :| Attempts(retries, k, tail, t);
      BlocksPlain(k);
      forall i | 0 < i < |t|
        ensures t[i].status in {Syncing, Failed, Success}
        ensures i < |t| - 1 ==> !t[i].schedule && t[i].status != Success
      {
        if i <= 2 * k {
          assert t[i] == Blocks(k)[i - 1];
        } else {
          assert t[i] == tail[i - 1 - 2 * k];
        }
      }
    }
  }
}
