/** What a sync run reports of what happened to it. A story is a run told attempt
    by attempt, in the order of the source's loop; it fixes the choices of the
    machine `Wrapper.Step` and the messages, and every run that completes has one.
    Models worker/job.go, lines 124 to 240.
 */
module Story {
  import opened JobTypes
  import opened Wrapper

  /** How the sync of an attempt ended: by itself, or by a `Terminate` that
      succeeded or not. */
  datatype Verdict = Succeeded | Errored | TimedOut(terminated: bool) | Killed(terminated: bool)

  /** An attempt: whether its hooks of each stage succeeded, whether its provider
      failed before it started, and whether the job was ready at its end. */
  datatype Attempt = Attempt(preExec: bool, early: bool, verdict: Verdict, postExec: bool, postHooks: bool, ready: bool)

  /** A run: whether its pre-job hooks succeeded, and its attempts. */
  datatype Story = Story(preJob: bool, attempts: seq<Attempt>)

  predicate Unstoppable(v: Verdict) {
    v == TimedOut(false) || v == Killed(false)
  }

  /** Only a failure that is no kill is retried, and only if no hook failed. */
  predicate Retried(a: Attempt) {
    a.preExec && a.postExec && a.postHooks && (a.verdict == Errored || a.verdict == TimedOut(true))
  }

  /** The attempts from attempt `k` on: as long as they are retried and there are
      retries left. */
  predicate Fits(retries: int, k: nat, attempts: seq<Attempt>)
    decreases |attempts|
  {
    if retries <= k then attempts == []
    else
      && attempts != []
      && (attempts[0].early ==> attempts[0].verdict != Succeeded)
      && (if Retried(attempts[0]) then Fits(retries, k + 1, attempts[1..]) else |attempts| == 1)
  }

  predicate Told(retries: int, st: Story) {
    if st.preJob then Fits(retries, 0, st.attempts) else st.attempts == []
  }

  // ---------------------------------------------------------------------
  // What it says
  // ---------------------------------------------------------------------

  /** What an attempt says of its end, after Syncing. */
  function SaysEnd(a: Attempt, last: bool): JobMessage {
    if !a.postExec || !a.postHooks then HOOK_FAILURE
    else if a.verdict == Succeeded then JobMessage(Success, a.ready)
    else JobMessage(Failed, last && a.ready)
  }

  function Says(a: Attempt, last: bool): seq<JobMessage> {
    if !a.preExec then [HOOK_FAILURE]
    else
      [SYNC_MSG] +
      if Unstoppable(a.verdict) then [] else [SaysEnd(a, last)]
  }

  function SaysFrom(retries: int, k: nat, attempts: seq<Attempt>): seq<JobMessage>
    decreases |attempts|
  {
    if attempts == [] then [] else Says(attempts[0], k == retries - 1) + SaysFrom(retries, k + 1, attempts[1..])
  }

  function Messages(retries: int, st: Story): seq<JobMessage> {
    [PRE_MSG] + if st.preJob then SaysFrom(retries, 0, st.attempts) else [HOOK_FAILURE]
  }

  // ---------------------------------------------------------------------
  // What the environment did
  // ---------------------------------------------------------------------

  function VerdictChoice(v: Verdict): Choice {
    match v
    case Succeeded => SyncDone(true)
    case Errored => SyncDone(false)
    case TimedOut(terminated) => Timeout(terminated)
    case Killed(terminated) => Kill(terminated)
  }

  /** The end of an attempt, from its post-exec hooks on. */
  function AfterSync(a: Attempt): seq<Choice> {
    if !a.postExec then [HookErr, Proceed]
    else if !a.postHooks then [HookOk, HookErr, Proceed]
    else [HookOk, HookOk, ReadState(a.ready), Proceed]
  }

  function During(a: Attempt): seq<Choice> {
    if !a.preExec then [Proceed, HookErr, Proceed]
    else
      [Proceed, HookOk, Proceed, if a.early then SyncDone(false) else ProviderStarted, VerdictChoice(a.verdict)]
      + if Unstoppable(a.verdict) then [] else AfterSync(a)
  }

  /** The test that finds no retries left comes after the last retried attempt. */
  function DuringAll(attempts: seq<Attempt>): seq<Choice> {
    if attempts == [] then [Proceed]
    else During(attempts[0]) + if Retried(attempts[0]) then DuringAll(attempts[1..]) else []
  }

  function Choices(st: Story): seq<Choice> {
    [Proceed] + if st.preJob then [HookOk] + DuringAll(st.attempts) else [HookErr, Proceed]
  }

  // ---------------------------------------------------------------------
  // Every story is a run
  // ---------------------------------------------------------------------

  /** One more step at the head of a run. */
  lemma Before(retries: int, pc: Pc, c: Choice, next: Pc, cs: seq<Choice>, o: Outcome)
    returns (cs': seq<Choice>, o': Outcome)
    requires Step(retries, pc, c) == Some(next) && Exec(retries, next, cs) == Some(o)
    ensures cs' == [c] + cs && o' == Outcome(o.pc, Emitted(pc) + o.trace)
    ensures Exec(retries, pc, cs') == Some(o')
  {
    cs', o' := [c] + cs, Outcome(o.pc, Emitted(pc) + o.trace);
    assert cs'[1..] == cs;
  }

  lemma Nothing(retries: int, pc: Pc)
    ensures Exec(retries, pc, []) == Some(Outcome(pc, []))
  {
  }

  /** A failing hook, wherever it is. */
  lemma HookFails(retries: int, pc: Pc)
    requires Step(retries, pc, HookErr) == Some(Sending(HOOK_FAILURE, Done)) && !pc.Sending?
    ensures Exec(retries, pc, [HookErr, Proceed]) == Some(Outcome(Done, [HOOK_FAILURE]))
  {
    Nothing(retries, Done);
    hide Exec;
    var cs, o := Before(retries, Sending(HOOK_FAILURE, Done), Proceed, Done, [], Outcome(Done, []));
    cs, o := Before(retries, pc, HookErr, Sending(HOOK_FAILURE, Done), cs, o);
    assert cs == [HookErr, Proceed] && o.trace == [HOOK_FAILURE];
  }

  lemma ReportRuns(retries: int, k: nat, a: Attempt)
    requires a.preExec && a.postExec && a.postHooks && !Unstoppable(a.verdict)
    ensures Exec(retries, Report(k, a.verdict == Succeeded, a.verdict.Killed?), [ReadState(a.ready), Proceed]) ==
            Some(Outcome(if Retried(a) then Test(k + 1) else Done, [SaysEnd(a, k == retries - 1)]))
  {
    var end := if Retried(a) then Test(k + 1) else Done;
    var m := SaysEnd(a, k == retries - 1);
    Nothing(retries, end);
    hide Exec;
    var cs, o := Before(retries, Sending(m, end), Proceed, end, [], Outcome(end, []));
    cs, o := Before(retries, Report(k, a.verdict == Succeeded, a.verdict.Killed?), ReadState(a.ready),
                    Sending(m, end), cs, o);
    assert cs == [ReadState(a.ready), Proceed] && o.trace == [m];
  }

  lemma AfterSyncRuns(retries: int, k: nat, a: Attempt)
    requires a.preExec && !Unstoppable(a.verdict)
    ensures Exec(retries, PostExec(k, a.verdict == Succeeded, a.verdict.Killed?), AfterSync(a)) ==
            Some(Outcome(if Retried(a) then Test(k + 1) else Done, [SaysEnd(a, k == retries - 1)]))
  {
    var ok, stop := a.verdict == Succeeded, a.verdict.Killed?;
    if !a.postExec {
      HookFails(retries, PostExec(k, ok, stop));
    } else if !a.postHooks {
      HookFails(retries, PostHooks(k, ok, stop));
      hide Exec;
      var cs, o := Before(retries, PostExec(k, ok, stop), HookOk, PostHooks(k, ok, stop), [HookErr, Proceed],
                          Outcome(Done, [HOOK_FAILURE]));
      assert cs == AfterSync(a) && o.trace == [HOOK_FAILURE];
    } else {
      ReportRuns(retries, k, a);
      hide Exec, Retried;
      var cs, o := [ReadState(a.ready), Proceed],
                   Outcome(if Retried(a) then Test(k + 1) else Done, [SaysEnd(a, k == retries - 1)]);
      cs, o := Before(retries, PostHooks(k, ok, stop), HookOk, Report(k, ok, stop), cs, o);
      cs, o := Before(retries, PostExec(k, ok, stop), HookOk, PostHooks(k, ok, stop), cs, o);
      assert cs == AfterSync(a) && o.trace == [SaysEnd(a, k == retries - 1)];
    }
  }

  /** The sync of an attempt and what comes after it. */
  lemma SyncRuns(retries: int, k: nat, a: Attempt) returns (cs: seq<Choice>, o: Outcome)
    requires a.preExec && (a.early ==> a.verdict != Succeeded)
    ensures cs == [VerdictChoice(a.verdict)] + if Unstoppable(a.verdict) then [] else AfterSync(a)
    ensures o.pc == if Retried(a) then Test(k + 1) else Done
    ensures [SYNC_MSG] + o.trace == Says(a, k == retries - 1)
    ensures Exec(retries, Running(k, a.early), cs) == Some(o)
  {
    if Unstoppable(a.verdict) {
      Nothing(retries, Done);
      hide Exec;
      cs, o := Before(retries, Running(k, a.early), VerdictChoice(a.verdict), Done, [], Outcome(Done, []));
    } else {
      AfterSyncRuns(retries, k, a);
      hide Exec;
      var next := PostExec(k, a.verdict == Succeeded, a.verdict.Killed?);
      o := Outcome(if Retried(a) then Test(k + 1) else Done, [SaysEnd(a, k == retries - 1)]);
      cs, o := Before(retries, Running(k, a.early), VerdictChoice(a.verdict), next, AfterSync(a), o);
    }
  }

  lemma StartRuns(retries: int, k: nat, a: Attempt) returns (cs: seq<Choice>, o: Outcome)
    requires a.preExec && (a.early ==> a.verdict != Succeeded)
    ensures [Proceed, HookOk] + cs == During(a)
    ensures o == Outcome(if Retried(a) then Test(k + 1) else Done, Says(a, k == retries - 1))
    ensures Exec(retries, Sending(SYNC_MSG, Starting(k)), cs) == Some(o)
  {
    var start := if a.early then SyncDone(false) else ProviderStarted;
    var cs0, o0 := SyncRuns(retries, k, a);
    assert During(a) == [Proceed, HookOk, Proceed, start] + cs0;
    hide Exec, AfterSync, Says, During, Retried, Unstoppable;
    cs, o := Before(retries, Starting(k), start, Running(k, a.early), cs0, o0);
    cs, o := Before(retries, Sending(SYNC_MSG, Starting(k)), Proceed, Starting(k), cs, o);
    hide Step;
    Glue(start, cs0);
    assert [] + o0.trace == o0.trace;
  }

  lemma Glue(c: Choice, cs: seq<Choice>)
    ensures [Proceed, HookOk] + ([Proceed] + ([c] + cs)) == [Proceed, HookOk, Proceed, c] + cs
  {
  }

  lemma AttemptRuns(retries: int, k: nat, a: Attempt)
    requires k < retries && (a.early ==> a.verdict != Succeeded)
    ensures Exec(retries, Test(k), During(a)) ==
            Some(Outcome(if Retried(a) then Test(k + 1) else Done, Says(a, k == retries - 1)))
  {
    var cs: seq<Choice>, o: Outcome;
    if !a.preExec {
      HookFails(retries, PreExec(k));
      hide Exec;
      cs, o := Before(retries, Test(k), Proceed, PreExec(k), [HookErr, Proceed], Outcome(Done, [HOOK_FAILURE]));
      assert cs == During(a) && o.trace == Says(a, k == retries - 1);
    } else {
      var cs0, o0 := StartRuns(retries, k, a);
      hide Exec, AfterSync, Says, During, Retried;
      cs, o := Before(retries, PreExec(k), HookOk, Sending(SYNC_MSG, Starting(k)), cs0, o0);
      cs, o := Before(retries, Test(k), Proceed, PreExec(k), cs, o);
      hide Step;
      assert cs == [Proceed, HookOk] + cs0 && [] + ([] + o0.trace) == o0.trace;
    }
  }

  lemma {:induction false} AttemptsRun(retries: int, k: nat, attempts: seq<Attempt>)
    requires Fits(retries, k, attempts)
    ensures Exec(retries, Test(k), DuringAll(attempts)) == Some(Outcome(Done, SaysFrom(retries, k, attempts)))
    decreases |attempts|
  {
    if attempts == [] {
      Nothing(retries, Done);
      var cs, o := Before(retries, Test(k), Proceed, Done, [], Outcome(Done, []));
      assert cs == DuringAll(attempts) && o.trace == [];
    } else {
      var a, rest := attempts[0], attempts[1..];
      AttemptRuns(retries, k, a);
      hide Exec, During, Says;
      if Retried(a) {
        AttemptsRun(retries, k + 1, rest);
        ExecConcat(retries, Test(k), During(a), DuringAll(rest));
      } else {
        assert rest == [] && During(a) + [] == During(a);
        assert SaysFrom(retries, k, attempts) == Says(a, k == retries - 1);
      }
    }
  }

  /** Whatever a story tells, some run does, and reports what the story says. */
  lemma StoryRuns(retries: int, st: Story)
    requires Told(retries, st)
    ensures Exec(retries, START, Choices(st)) == Some(Outcome(Done, Messages(retries, st)))
  {
    var cs: seq<Choice>, o: Outcome;
    if st.preJob {
      AttemptsRun(retries, 0, st.attempts);
      hide Exec;
      o := Outcome(Done, SaysFrom(retries, 0, st.attempts));
      cs, o := Before(retries, PreJob, HookOk, Test(0), DuringAll(st.attempts), o);
    } else {
      HookFails(retries, PreJob);
      hide Exec;
      cs, o := [HookErr, Proceed], Outcome(Done, [HOOK_FAILURE]);
    }
    cs, o := Before(retries, START, Proceed, PreJob, cs, o);
    assert cs == Choices(st) && o.trace == Messages(retries, st);
  }

  // ---------------------------------------------------------------------
  // Every run is a story
  // ---------------------------------------------------------------------

  predicate Ends(retries: int, pc: Pc, cs: seq<Choice>) {
    Exec(retries, pc, cs).Some? && Exec(retries, pc, cs).value.pc == Done
  }

  lemma Peel(retries: int, pc: Pc, cs: seq<Choice>)
    requires Ends(retries, pc, cs)
    ensures pc == Done ==> cs == []
    ensures pc != Done ==> pc != Crashed && cs != [] && cs == [cs[0]] + cs[1..]
    ensures pc != Done ==> Step(retries, pc, cs[0]).Some? && Ends(retries, Step(retries, pc, cs[0]).value, cs[1..])
  {
  }

  lemma PeelHookErr(retries: int, pc: Pc, cs: seq<Choice>)
    requires Ends(retries, pc, cs) && pc != Done && cs != [] && cs[0] == HookErr
    ensures cs == [HookErr, Proceed]
  {
    Peel(retries, pc, cs);
    Peel(retries, Step(retries, pc, cs[0]).value, cs[1..]);
    Peel(retries, Done, cs[2..]);
  }

  lemma ParseReport(retries: int, k: nat, ok: bool, stop: bool, cs: seq<Choice>)
    returns (ready: bool, rest: seq<Choice>)
    requires Ends(retries, Report(k, ok, stop), cs)
    ensures cs == [ReadState(ready), Proceed] + rest
    ensures Ends(retries, if ok || stop then Done else Test(k + 1), rest)
  {
    hide Exec;
    Peel(retries, Report(k, ok, stop), cs);
    Peel(retries, Step(retries, Report(k, ok, stop), cs[0]).value, cs[1..]);
    ready, rest := cs[0].ready, cs[2..];
  }

  lemma ParseHooks(retries: int, k: nat, a: Attempt, cs: seq<Choice>) returns (a': Attempt, rest: seq<Choice>)
    requires a.preExec && a.postExec && !Unstoppable(a.verdict)
    requires Ends(retries, PostHooks(k, a.verdict == Succeeded, a.verdict.Killed?), cs)
    ensures a' == a.(postHooks := a'.postHooks, ready := a'.ready)
    ensures [HookOk] + cs == AfterSync(a') + rest && Ends(retries, if Retried(a') then Test(k + 1) else Done, rest)
  {
    assert Ends(retries, Done, []);
    hide Exec;
    var ok, stop := a.verdict == Succeeded, a.verdict.Killed?;
    Peel(retries, PostHooks(k, ok, stop), cs);
    if cs[0] == HookErr {
      PeelHookErr(retries, PostHooks(k, ok, stop), cs);
      a', rest := a.(postHooks := false), [];
    } else {
      var ready: bool;
      ready, rest := ParseReport(retries, k, ok, stop, cs[1..]);
      hide Step, Ends;
      a' := a.(postHooks := true, ready := ready);
      assert cs == [HookOk] + cs[1..];
    }
  }

  /** The end of an attempt, whatever its sync came to. */
  lemma ParseEnd(retries: int, k: nat, a: Attempt, cs: seq<Choice>) returns (a': Attempt, rest: seq<Choice>)
    requires a.preExec && !Unstoppable(a.verdict)
    requires Ends(retries, PostExec(k, a.verdict == Succeeded, a.verdict.Killed?), cs)
    ensures a' == a.(postExec := a'.postExec, postHooks := a'.postHooks, ready := a'.ready)
    ensures cs == AfterSync(a') + rest && Ends(retries, if Retried(a') then Test(k + 1) else Done, rest)
  {
    assert Ends(retries, Done, []);
    hide Exec;
    var ok, stop := a.verdict == Succeeded, a.verdict.Killed?;
    Peel(retries, PostExec(k, ok, stop), cs);
    if cs[0] == HookErr {
      PeelHookErr(retries, PostExec(k, ok, stop), cs);
      a', rest := a.(postExec := false), [];
    } else {
      a', rest := ParseHooks(retries, k, a.(postExec := true), cs[1..]);
    }
  }

  /** The sync of an attempt and what comes after it. */
  lemma ParseSync(retries: int, k: nat, early: bool, cs: seq<Choice>) returns (a: Attempt, rest: seq<Choice>)
    requires Ends(retries, Running(k, early), cs)
    ensures a.preExec && a.early == early && (early ==> a.verdict != Succeeded)
    ensures cs == [VerdictChoice(a.verdict)] + (if Unstoppable(a.verdict) then [] else AfterSync(a)) + rest
    ensures Ends(retries, if Retried(a) then Test(k + 1) else Done, rest)
  {
    Peel(retries, Running(k, early), cs);
    var v := match cs[0] {
      case SyncDone(ok) => if ok then Succeeded else Errored
      case Timeout(terminated) => TimedOut(terminated)
      case Kill(terminated) => Killed(terminated)
      case _ => Errored
    };
    a := Attempt(true, early, v, true, true, true);
    if Unstoppable(v) {
      rest := cs[1..];
    } else {
      hide Exec;
      a, rest := ParseEnd(retries, k, a, cs[1..]);
    }
  }

  lemma ParseStart(retries: int, k: nat, cs: seq<Choice>) returns (early: bool)
    requires Ends(retries, Sending(SYNC_MSG, Starting(k)), cs)
    ensures |cs| >= 2 && cs == [Proceed, if early then SyncDone(false) else ProviderStarted] + cs[2..]
    ensures Ends(retries, Running(k, early), cs[2..])
  {
    hide Exec;
    Peel(retries, Sending(SYNC_MSG, Starting(k)), cs);
    Peel(retries, Starting(k), cs[1..]);
    early := cs[1] != ProviderStarted;
    Peel(retries, Step(retries, Starting(k), cs[1]).value, cs[2..]);
  }

  lemma Assemble(start: Choice, end: Choice, cs: seq<Choice>, rest: seq<Choice>)
    ensures [Proceed, HookOk] + ([Proceed, start] + ([end] + cs + rest)) ==
            [Proceed, HookOk, Proceed, start, end] + cs + rest
  {
  }

  lemma ParseAttempt(retries: int, k: nat, cs: seq<Choice>) returns (a: Attempt, rest: seq<Choice>)
    requires k < retries && Ends(retries, Test(k), cs)
    ensures a.early ==> a.verdict != Succeeded
    ensures cs == During(a) + rest && |rest| < |cs|
    ensures Ends(retries, if Retried(a) then Test(k + 1) else Done, rest)
  {
    assert Ends(retries, Done, []);
    hide Exec;
    Peel(retries, Test(k), cs);
    Peel(retries, PreExec(k), cs[1..]);
    hide Ends;
    if cs[1] == HookErr {
      PeelHookErr(retries, PreExec(k), cs[1..]);
      a, rest := Attempt(false, false, Errored, true, true, true), [];
    } else {
      var early := ParseStart(retries, k, cs[2..]);
      assert cs == [Proceed, HookOk] + cs[2..];
      hide Step, AfterSync, Unstoppable, Retried;
      a, rest := ParseSync(retries, k, early, cs[2..][2..]);
      Assemble(if early then SyncDone(false) else ProviderStarted, VerdictChoice(a.verdict),
               if Unstoppable(a.verdict) then [] else AfterSync(a), rest);
    }
  }

  lemma {:induction false} ParseAttempts(retries: int, k: nat, cs: seq<Choice>) returns (attempts: seq<Attempt>)
    requires Ends(retries, Test(k), cs)
    ensures Fits(retries, k, attempts) && cs == DuringAll(attempts)
    decreases |cs|
  {
    if retries <= k {
      Peel(retries, Test(k), cs);
      Peel(retries, Done, cs[1..]);
      attempts := [];
    } else {
      var a, rest := ParseAttempt(retries, k, cs);
      hide Exec, During;
      if Retried(a) {
        attempts := ParseAttempts(retries, k + 1, rest);
        assert ([a] + attempts)[1..] == attempts;
        attempts := [a] + attempts;
      } else {
        Peel(retries, Done, rest);
        attempts := [a];
      }
    }
  }

  /** Every run that completes has a story: the choices are the story's, and so
      are the messages. */
  lemma RunHasStory(retries: int, cs: seq<Choice>) returns (st: Story)
    requires Exec(retries, START, cs).Some? && Exec(retries, START, cs).value.pc == Done
    ensures Told(retries, st) && cs == Choices(st)
    ensures Exec(retries, START, cs).value.trace == Messages(retries, st)
  {
    assert Ends(retries, START, cs);
    Peel(retries, START, cs);
    Peel(retries, PreJob, cs[1..]);
    if cs[1] == HookErr {
      PeelHookErr(retries, PreJob, cs[1..]);
      st := Story(false, []);
    } else {
      hide Exec;
      var attempts := ParseAttempts(retries, 0, cs[2..]);
      st := Story(true, attempts);
      assert cs == [Proceed, HookOk] + cs[2..];
    }
    StoryRuns(retries, st);
  }

  // ---------------------------------------------------------------------
  // What a reader may conclude
  // ---------------------------------------------------------------------

  predicate Succeeds(t: seq<JobMessage>) {
    exists i :: 0 <= i < |t| && t[i].status == Success
  }

  lemma SucceedsConcat(a: seq<JobMessage>, b: seq<JobMessage>)
    ensures Succeeds(a + b) <==> Succeeds(a) || Succeeds(b)
  {
    if Succeeds(a) {
      var i :| 0 <= i < |a| && a[i].status == Success;
      assert (a + b)[i].status == Success;
    }
    if Succeeds(b) {
      var i :| 0 <= i < |b| && b[i].status == Success;
      assert (a + b)[|a| + i].status == Success;
    }
  }

  /** Success is reported exactly after a sync that succeeded with no hook
      failing, last, and asks to be scheduled exactly if the job was ready. */
  predicate TellsSuccess(cs: seq<Choice>, t: seq<JobMessage>) {
    && (Succeeds(t) <==> SyncDone(true) in cs && HookErr !in cs)
    && (Succeeds(t) ==>
          |cs| >= 2 && cs[|cs| - 2].ReadState? && t[|t| - 1] == JobMessage(Success, cs[|cs| - 2].ready))
  }

  /** One attempt: its sync succeeded and no hook failed. */
  lemma AttemptSuccess(a: Attempt, last: bool)
    ensures TellsSuccess(During(a), Says(a, last))
    ensures Retried(a) ==> SyncDone(true) !in During(a) && HookErr !in During(a)
  {
    var t := Says(a, last);
    if a.preExec && a.postExec && a.postHooks && a.verdict == Succeeded {
      assert t[1].status == Success;
      assert During(a)[4] == SyncDone(true);
    }
  }

  lemma PrefixSuccess(cs0: seq<Choice>, t0: seq<JobMessage>, cs: seq<Choice>, t: seq<JobMessage>)
    requires TellsSuccess(cs, t) && !Succeeds(t0) && SyncDone(true) !in cs0 && HookErr !in cs0
    ensures TellsSuccess(cs0 + cs, t0 + t)
  {
    SucceedsConcat(t0, t);
    if Succeeds(t) {
      assert t != [];
      assert (cs0 + cs)[|cs0 + cs| - 2] == cs[|cs| - 2];
    }
    hide Succeeds;
  }

  lemma {:induction false} AttemptsSuccess(retries: int, k: nat, attempts: seq<Attempt>)
    requires Fits(retries, k, attempts)
    ensures TellsSuccess(DuringAll(attempts), SaysFrom(retries, k, attempts))
    decreases |attempts|
  {
    if attempts != [] {
      var a, rest := attempts[0], attempts[1..];
      AttemptSuccess(a, k == retries - 1);
      assert Retried(a) ==> !Succeeds(Says(a, k == retries - 1));
      hide During, Says, TellsSuccess, Succeeds;
      if Retried(a) {
        AttemptsSuccess(retries, k + 1, rest);
        PrefixSuccess(During(a), Says(a, k == retries - 1), DuringAll(rest), SaysFrom(retries, k + 1, rest));
      } else {
        assert rest == [] && During(a) + [] == During(a);
        assert Says(a, k == retries - 1) + [] == Says(a, k == retries - 1);
      }
    }
  }

  /** Every completed run tells its success so. */
  lemma SuccessIff(retries: int, cs: seq<Choice>)
    requires Exec(retries, START, cs).Some? && Exec(retries, START, cs).value.pc == Done
    ensures TellsSuccess(cs, Exec(retries, START, cs).value.trace)
  {
    var st := RunHasStory(retries, cs);
    hide Exec;
    if st.preJob {
      AttemptsSuccess(retries, 0, st.attempts);
      assert cs == [Proceed, HookOk] + DuringAll(st.attempts);
      hide TellsSuccess, Fits, DuringAll, SaysFrom;
      PrefixSuccess([Proceed, HookOk], [PRE_MSG], DuringAll(st.attempts), SaysFrom(retries, 0, st.attempts));
    }
  }

  lemma {:induction false} ExecPrefix(retries: int, pc: Pc, a: seq<Choice>, b: seq<Choice>)
    requires Exec(retries, pc, a + b).Some?
    ensures Exec(retries, pc, a).Some?
    decreases |a|
  {
    if a != [] {
      assert (a + b)[1..] == a[1..] + b && (a + b)[0] == a[0];
      ExecPrefix(retries, Step(retries, pc, a[0]).value, a[1..], b);
    }
  }

  /** A kill ends the run: if the provider could not be terminated, there and
      then; otherwise with one message more, a failure, and no further attempt. */
  lemma KillEnds(retries: int, before: seq<Choice>, terminated: bool, after: seq<Choice>)
    requires var o := Exec(retries, START, before + [Kill(terminated)] + after); o.Some? && o.value.pc == Done
    ensures Exec(retries, START, before).Some?
    ensures var t := Exec(retries, START, before + [Kill(terminated)] + after).value.trace;
            && (!terminated ==> after == [] && t == Exec(retries, START, before).value.trace)
            && (terminated ==>
                  && t == Exec(retries, START, before).value.trace + [t[|t| - 1]] && t[|t| - 1].status == Failed
                  && (HookErr in after ==> t[|t| - 1].schedule))
  {
    var rest := [Kill(terminated)] + after;
    assert before + [Kill(terminated)] + after == before + rest;
    ExecPrefix(retries, START, before, rest);
    ExecConcat(retries, START, before, rest);
    var pc := Exec(retries, START, before).value.pc;
    assert Ends(retries, pc, rest) && rest[1..] == after;
    Peel(retries, pc, rest);
    var next := Step(retries, pc, Kill(terminated)).value;
    if terminated {
      var a := Attempt(true, false, Killed(true), true, true, true);
      var a', none := ParseEnd(retries, pc.retry, a, after);
      Peel(retries, Done, none);
      AfterSyncRuns(retries, pc.retry, a');
      assert AfterSync(a') + [] == AfterSync(a');
    } else {
      Peel(retries, Done, after);
    }
  }

  function Syncings(t: seq<JobMessage>): nat {
    if t == [] then 0 else Syncings(t[..|t| - 1]) + if t[|t| - 1].status == Syncing then 1 else 0
  }

  lemma {:induction false} SyncingsConcat(a: seq<JobMessage>, b: seq<JobMessage>)
    ensures Syncings(a + b) == Syncings(a) + Syncings(b)
  {
    if b == [] {
      assert a + b == a;
    } else {
      SyncingsConcat(a, b[..|b| - 1]);
      assert (a + b)[..|a + b| - 1] == a + b[..|b| - 1];
    }
  }

  /** What keeps a run from going on to its next attempt. */
  predicate Final(c: Choice) {
    c == HookErr || c == SyncDone(true) || c.Kill? || c == Timeout(false)
  }

  predicate NoneFinal(cs: seq<Choice>) {
    forall i | 0 <= i < |cs| :: !Final(cs[i])
  }

  lemma NoneFinalParts(a: seq<Choice>, b: seq<Choice>)
    requires NoneFinal(a + b)
    ensures NoneFinal(a) && NoneFinal(b)
  {
    assert forall i | 0 <= i < |a| :: a[i] == (a + b)[i];
    assert forall i | 0 <= i < |b| :: b[i] == (a + b)[|a| + i];
  }

  lemma OnlyRetried(a: Attempt)
    requires NoneFinal(During(a))
    ensures Retried(a)
  {
    var cs := During(a);
    assert !Final(cs[1]);
    assert !Final(cs[4]) && cs[4] == VerdictChoice(a.verdict);
    assert !Final(cs[5]);
    if a.postExec {
      assert !Final(cs[6]);
    }
  }

  lemma {:induction false} AttemptsExhausted(retries: int, k: nat, attempts: seq<Attempt>)
    requires Fits(retries, k, attempts) && NoneFinal(DuringAll(attempts))
    ensures Syncings(SaysFrom(retries, k, attempts)) == if k < retries then retries - k else 0
    decreases |attempts|
  {
    if attempts != [] {
      var a, rest := attempts[0], attempts[1..];
      var t := Says(a, k == retries - 1);
      NoneFinalParts(During(a), if Retried(a) then DuringAll(rest) else []);
      OnlyRetried(a);
      assert t == [SYNC_MSG] + [t[1]] && t[1].status == Failed;
      assert t[..1] == [SYNC_MSG] && t[..1][..0] == [];
      assert Syncings([SYNC_MSG]) == 1 && Syncings(t) == 1;
      hide During, Says, NoneFinal, Syncings;
      AttemptsExhausted(retries, k + 1, rest);
      SyncingsConcat(t, SaysFrom(retries, k + 1, rest));
    }
  }

  /** A run whose hooks all succeed, whose syncs all fail, that is not killed and
      whose timeouts all terminate the provider makes every attempt it has. */
  lemma Exhausted(retries: int, cs: seq<Choice>)
    requires Exec(retries, START, cs).Some? && Exec(retries, START, cs).value.pc == Done
    requires NoneFinal(cs)
    ensures Syncings(Exec(retries, START, cs).value.trace) == if 0 < retries then retries else 0
  {
    var st := RunHasStory(retries, cs);
    hide Exec;
    if st.preJob {
      NoneFinalParts([Proceed, HookOk], DuringAll(st.attempts));
      AttemptsExhausted(retries, 0, st.attempts);
      assert [PRE_MSG][..0] == [];
      SyncingsConcat([PRE_MSG], SaysFrom(retries, 0, st.attempts));
    }
    assert !Final(cs[1]);
  }

  // ---------------------------------------------------------------------
  // Crashes
  // ---------------------------------------------------------------------

  predicate Alive(pc: Pc) {
    pc != Crashed && (pc.Sending? ==> Alive(pc.next))
  }

  lemma StepAlive(retries: int, pc: Pc, c: Choice)
    requires Alive(pc) && Step(retries, pc, c).Some?
    ensures Step(retries, pc, c) == Some(Crashed) ==> pc.Starting? && c == SyncDone(true)
    ensures Step(retries, pc, c) != Some(Crashed) ==> Alive(Step(retries, pc, c).value)
  {
  }

  lemma {:induction false} CrashedLast(retries: int, pc: Pc, cs: seq<Choice>)
    requires Exec(retries, pc, cs).Some? && Exec(retries, pc, cs).value.pc == Crashed && Alive(pc)
    ensures exists k :: Exec(retries, pc, cs[..|cs| - 1]).Some? && cs[|cs| - 1] == SyncDone(true)
                        && Exec(retries, pc, cs[..|cs| - 1]).value.pc == Starting(k)
    decreases |cs|
  {
    var next := Step(retries, pc, cs[0]).value;
    StepAlive(retries, pc, cs[0]);
    if next == Crashed {
      assert cs[1..] == [] by {
        Stays(retries, cs[1..]);
      }
      assert cs[..0] == [];
      assert pc == Starting(pc.retry);
    } else {
      CrashedLast(retries, next, cs[1..]);
      assert cs[1..][..|cs| - 2] == cs[..|cs| - 1][1..];
      assert cs[1..][|cs| - 2] == cs[|cs| - 1];
    }
  }

  lemma Stays(retries: int, cs: seq<Choice>)
    requires Exec(retries, Crashed, cs).Some?
    ensures cs == []
  {
  }

  ghost predicate Crashes(retries: int, cs: seq<Choice>, said: seq<JobMessage>) {
    Exec(retries, START, cs) == Some(Outcome(Crashed, said))
  }

  lemma CrashTrace(retries: int, cs: seq<Choice>, said: seq<JobMessage>) returns (k: nat)
    requires Crashes(retries, cs, said)
    ensures k < retries && said == [PRE_MSG] + Blocks(k) + [SYNC_MSG]
    ensures cs != [] && cs[|cs| - 1] == SyncDone(true)
  {
    CrashedLast(retries, START, cs);
    var before := cs[..|cs| - 1];
    assert cs == before + [cs[|cs| - 1]];
    var mid := Exec(retries, START, before).value;
    k := mid.pc.retry;
    ExecKeepsShape(retries, START, before, []);
    assert [] + mid.trace == mid.trace;
    ExecConcat(retries, START, before, [SyncDone(true)]);
    Nothing(retries, Crashed);
    var end, o := Before(retries, Starting(k), SyncDone(true), Crashed, [], Outcome(Crashed, []));
    assert end == [SyncDone(true)] && o.trace == [] && mid.trace + [] == mid.trace;
  }

  lemma ReachCrash(retries: int, k: nat) returns (cs: seq<Choice>)
    requires k < retries
    ensures Crashes(retries, cs, [PRE_MSG] + Blocks(k) + [SYNC_MSG])
  {
    hide Exec;
    var o: Outcome;
    cs, o := ReachTest(retries, k);
    cs, o := Go(retries, cs, o, Proceed);
    cs, o := Go(retries, cs, o, HookOk);
    cs, o := Go(retries, cs, o, Proceed);
    cs, o := Go(retries, cs, o, SyncDone(true));
    assert o.trace == [PRE_MSG] + Blocks(k) + [SYNC_MSG];
  }

  /** A run panics exactly when its provider returns no error before it has
      started: in any attempt, having reported the failed ones before it and
      Syncing, and nothing else. */
  lemma CrashIff(retries: int, said: seq<JobMessage>)
    ensures (exists cs :: Crashes(retries, cs, said)) <==>
            exists k: nat :: k < retries && said == [PRE_MSG] + Blocks(k) + [SYNC_MSG]
    ensures forall cs | Crashes(retries, cs, said) :: cs != [] && cs[|cs| - 1] == SyncDone(true)
  {
    forall cs: seq<Choice> | Crashes(retries, cs, said)
      ensures cs != [] && cs[|cs| - 1] == SyncDone(true)
      ensures exists k: nat :: k < retries && said == [PRE_MSG] + Blocks(k) + [SYNC_MSG]
    {
      var k := CrashTrace(retries, cs, said);
    }
    if k: nat :| k < retries && said == [PRE_MSG] + Blocks(k) + [SYNC_MSG] {
      var cs := ReachCrash(retries, k);
    }
  }
}
