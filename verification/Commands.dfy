/** From a request to the control loop, over whole interleavings: which control
    action each accepted command and each `Halt` sends, which of them launch a
    loop, what a due schedule sends, and which messages of a run reach `AddJob`.
    Models worker/worker.go, lines 63 to 133 and 191 to 225.
 */
module Commands {
  import opened JobTypes
  import opened Sums
  import opened Protocol
  import S = Schedule

  // ---------------------------------------------------------------------
  // What is sent and received
  // ---------------------------------------------------------------------

  /** What a step puts into the control channel. */
  function Puts(s: Sys, lbl: Label): seq<Ctrl>
    requires Next(s, lbl).Some?
  {
    var ctrl := Next(s, lbl).value.ctrl;
    if |s.ctrl| <= |ctrl| then ctrl[|s.ctrl|..] else []
  }

  function Sent(s: Sys, ls: seq<Label>): seq<Ctrl>
    requires Interleave(s, ls).Some?
  {
    if ls == [] then []
    else
      var before := ls[..|ls| - 1];
      Sent(s, before) + Puts(Interleave(s, before).value, ls[|ls| - 1])
  }

  /** What the control loops have received, in the order they did. */
  function Received(s: Sys, ls: seq<Label>): seq<Ctrl>
    requires Interleave(s, ls).Some?
  {
    if ls == [] then []
    else
      var before, lbl := ls[..|ls| - 1], ls[|ls| - 1];
      var t := Interleave(s, before).value;
      Received(s, before) + if lbl.LoopStep? && lbl.loopMove.RecvCtrl? && t.ctrl != [] then [t.ctrl[0]] else []
  }

  lemma CtrlStep(s: Sys, lbl: Label)
    requires Next(s, lbl).Some?
    ensures if lbl.LoopStep? && lbl.loopMove.RecvCtrl?
            then s.ctrl != [] && Next(s, lbl).value.ctrl == s.ctrl[1..]
            else Next(s, lbl).value.ctrl == s.ctrl + Puts(s, lbl)
  {
    hide StepLoop, StepRun, StepStart, StepSched, HandlerReady, NextHandler;
    match lbl
    case LoopStep(i, move) => LoopStepFrame(s, i, move);
    case RunStep(i, j, move) => RunStepFrame(s, i, j, move);
    case StartStep => StartFrame(s);
    case SchedStep(move) => SchedFrame(s, move);
    case FrontStep(move) =>
  }

  /** The control channel is first in, first out, and loses nothing. */
  lemma {:induction false} CtrlHistory(s: Sys, ls: seq<Label>)
    requires s.ctrl == [] && Interleave(s, ls).Some?
    ensures Sent(s, ls) == Received(s, ls) + Interleave(s, ls).value.ctrl
  {
    if ls != [] {
      var before, lbl := ls[..|ls| - 1], ls[|ls| - 1];
      CtrlHistory(s, before);
      var t := Interleave(s, before).value;
      CtrlStep(t, lbl);
      hide Next;
      if lbl.LoopStep? && lbl.loopMove.RecvCtrl? {
        assert Puts(t, lbl) == [];
        Takes(Received(s, before), t.ctrl);
      } else {
        Appends(Received(s, before), t.ctrl, Puts(t, lbl));
      }
      hide Puts;
    }
  }

  lemma Takes(a: seq<Ctrl>, b: seq<Ctrl>)
    requires b != []
    ensures a + b + [] == a + [b[0]] + b[1..]
  {
  }

  lemma Appends(a: seq<Ctrl>, b: seq<Ctrl>, c: seq<Ctrl>)
    ensures a + b + c == a + [] + (b + c)
  {
  }

  // ---------------------------------------------------------------------
  // Requests
  // ---------------------------------------------------------------------

  datatype Request = Http(cmd: HttpCmd) | Halts

  /** The request a label accepts. */
  function AcceptedBy(lbl: Label): seq<Request> {
    match lbl
    case FrontStep(Accept(cmd)) => [Http(cmd)]
    case FrontStep(AcceptHalt) => [Halts]
    case _ => []
  }

  function Requests(ls: seq<Label>): seq<Request> {
    if ls == [] then []
    else
      Requests(ls[..|ls| - 1]) + AcceptedBy(ls[|ls| - 1])
  }

  predicate IsAdvance(lbl: Label) {
    lbl == FrontStep(Advance)
  }

  /** The handler is about to look at the state. */
  predicate Looks(pc: HandlerPc) {
    pc.Check? || pc.HaltCheck?
  }

  /** For each request looked at, in order, whether it found the job disabled. */
  function Looked(s: Sys, ls: seq<Label>): seq<bool>
    requires Interleave(s, ls).Some?
  {
    if ls == [] then []
    else
      var before := ls[..|ls| - 1];
      var t := Interleave(s, before).value;
      Looked(s, before) + if IsAdvance(ls[|ls| - 1]) && Looks(t.handler) then [t.state == StateDisabled] else []
  }

  /** What the handlers sent, and how many loops they launched. */
  function HandlerSent(s: Sys, ls: seq<Label>): seq<Ctrl>
    requires Interleave(s, ls).Some?
  {
    if ls == [] then []
    else
      var before, lbl := ls[..|ls| - 1], ls[|ls| - 1];
      HandlerSent(s, before) + if IsAdvance(lbl) then Puts(Interleave(s, before).value, lbl) else []
  }

  function HandlerLaunched(s: Sys, ls: seq<Label>): int
    requires Interleave(s, ls).Some?
  {
    if ls == [] then 0
    else
      var before := ls[..|ls| - 1];
      HandlerLaunched(s, before) +
      if IsAdvance(ls[|ls| - 1])
      then |Interleave(s, ls).value.core.loops| - |Interleave(s, before).value.core.loops|
      else 0
  }

  /** The control action a request is for: a stop and a halt are dropped if the
      job is disabled; a ping and an invalid command are for none. */
  function Means(r: Request, disabled: bool): seq<Ctrl> {
    match r
    case Http(CmdStart(true)) => [JobForceStart]
    case Http(CmdStart(false)) => [JobStart]
    case Http(CmdRestart) => [JobRestart]
    case Http(CmdStop) => if disabled then [] else [JobStop]
    case Http(_) => []
    case Halts => if disabled then [] else [JobHalt]
  }

  function MeansAll(rs: seq<Request>, looked: seq<bool>): seq<Ctrl>
    requires |looked| <= |rs|
    decreases |looked|
  {
    if looked == [] then []
    else
      var n := |looked| - 1;
      MeansAll(rs, looked[..n]) + Means(rs[n], looked[n])
  }

  /** A start or restart that found the job disabled launches a control loop. */
  function Launching(rs: seq<Request>, looked: seq<bool>): nat
    requires |looked| <= |rs|
    decreases |looked|
  {
    if looked == [] then 0
    else
      var n := |looked| - 1;
      Launching(rs, looked[..n]) +
      if looked[n] && rs[n].Http? && (rs[n].cmd.CmdStart? || rs[n].cmd.CmdRestart?) then 1 else 0
  }

  lemma {:induction false} MeansMore(rs: seq<Request>, more: seq<Request>, looked: seq<bool>)
    requires |looked| <= |rs|
    ensures MeansAll(rs + more, looked) == MeansAll(rs, looked) && Launching(rs + more, looked) == Launching(rs, looked)
    decreases |looked|
  {
    if looked != [] {
      MeansMore(rs, more, looked[..|looked| - 1]);
    }
  }

  /** What the handler has decided to send. */
  function Decided(pc: HandlerPc): seq<Ctrl> {
    match pc
    case Send(c) => [c]
    case HaltSend => [JobHalt]
    case _ => []
  }

  /** The request in the handler's hands that it has not looked at the state for. */
  function Undecided(pc: HandlerPc): seq<Request> {
    match pc
    case Flush(cmd) => [Http(cmd)]
    case Check(cmd) => [Http(cmd)]
    case HaltCheck => [Halts]
    case _ => []
  }

  ghost predicate Carried(pc: HandlerPc, rs: seq<Request>, looked: seq<bool>, sent: seq<Ctrl>, launched: int) {
    && |rs| == |looked| + |Undecided(pc)| && rs[|looked|..] == Undecided(pc)
    && MeansAll(rs, looked) == sent + Decided(pc)
    && launched == Launching(rs, looked)
  }

  lemma LookCarries(pc: HandlerPc, state: JobState, rs: seq<Request>, looked: seq<bool>, sent: seq<Ctrl>, launched: int)
    requires Looks(pc) && Carried(pc, rs, looked, sent, launched)
    ensures Carried(NextHandler(pc, state), rs, looked + [state == StateDisabled], sent,
                    launched + if LaunchesLoop(pc, state) then 1 else 0)
  {
    var disabled := state == StateDisabled;
    assert rs[|looked|] == rs[|looked|..][0];
    assert (looked + [disabled])[..|looked|] == looked;
    assert MeansAll(rs, looked + [disabled]) == MeansAll(rs, looked) + Means(rs[|looked|], disabled);
    assert Decided(pc) == [] && sent + [] == sent;
    assert Means(rs[|looked|], disabled) == Decided(NextHandler(pc, state));
  }

  lemma HandlerCarries(s: Sys, rs: seq<Request>, looked: seq<bool>, sent: seq<Ctrl>, launched: int)
    requires Carried(s.handler, rs, looked, sent, launched) && StepHandler(s).Some?
    ensures var s' := StepHandler(s).value;
            && |s.ctrl| <= |s'.ctrl|
            && Carried(s'.handler, rs, looked + (if Looks(s.handler) then [s.state == StateDisabled] else []),
                       sent + s'.ctrl[|s.ctrl|..], launched + |s'.core.loops| - |s.core.loops|)
  {
    hide Carried;
    var s' := StepHandler(s).value;
    if Looks(s.handler) {
      LookCarries(s.handler, s.state, rs, looked, sent, launched);
      assert s'.ctrl == s.ctrl && s'.ctrl[|s.ctrl|..] == [] && sent + [] == sent;
      assert |s'.core.loops| == |s.core.loops| + if LaunchesLoop(s.handler, s.state) then 1 else 0;
    } else {
      HandlerPasses(s);
      hide StepHandler;
      PassCarries(s.handler, s'.handler, rs, looked, sent, launched);
      assert looked + [] == looked;
    }
  }

  lemma HandlerPasses(s: Sys)
    requires StepHandler(s).Some? && !Looks(s.handler)
    ensures var s' := StepHandler(s).value;
            && s'.ctrl == s.ctrl + Decided(s.handler) && s'.ctrl[|s.ctrl|..] == Decided(s.handler)
            && s'.core == s.core && Undecided(s'.handler) == Undecided(s.handler) && Decided(s'.handler) == []
  {
  }

  lemma PassCarries(pc: HandlerPc, pc': HandlerPc, rs: seq<Request>, looked: seq<bool>, sent: seq<Ctrl>, launched: int)
    requires Carried(pc, rs, looked, sent, launched) && Undecided(pc') == Undecided(pc) && Decided(pc') == []
    ensures Carried(pc', rs, looked, sent + Decided(pc), launched)
  {
    hide MeansAll, Launching, Undecided;
    assert sent + Decided(pc) + [] == sent + Decided(pc);
  }

  lemma AcceptCarries(pc: HandlerPc, r: Request, rs: seq<Request>, looked: seq<bool>, sent: seq<Ctrl>, launched: int)
    requires Carried(Free, rs, looked, sent, launched) && Undecided(pc) == [r] && Decided(pc) == []
    ensures Carried(pc, rs + [r], looked, sent, launched)
  {
    MeansMore(rs, [r], looked);
    assert (rs + [r])[|looked|..] == [r];
  }

  lemma NextCarries(s: Sys, lbl: Label, rs: seq<Request>, looked: seq<bool>, sent: seq<Ctrl>, launched: int)
    requires Carried(s.handler, rs, looked, sent, launched) && Next(s, lbl).Some?
    ensures var s' := Next(s, lbl).value;
            var adv := IsAdvance(lbl);
            Carried(s'.handler, rs + AcceptedBy(lbl),
                    looked + (if adv && Looks(s.handler) then [s.state == StateDisabled] else []),
                    sent + (if adv then Puts(s, lbl) else []),
                    launched + if adv then |s'.core.loops| - |s.core.loops| else 0)
  {
    assert rs + [] == rs && looked + [] == looked && sent + [] == sent;
    hide Carried, StepLoop, StepRun, StepStart, StepSched, StepHandler;
    match lbl
    case LoopStep(i, move) => LoopStepFrame(s, i, move);
    case RunStep(i, j, move) => RunStepFrame(s, i, j, move);
    case StartStep => StartFrame(s);
    case SchedStep(move) => SchedFrame(s, move);
    case FrontStep(move) =>
      match move {
        case Accept(cmd) => AcceptCarries(Flush(cmd), Http(cmd), rs, looked, sent, launched);
        case AcceptHalt => AcceptCarries(HaltCheck, Halts, rs, looked, sent, launched);
        case Advance => HandlerCarries(s, rs, looked, sent, launched);
        case _ =>
      }
  }

  lemma {:induction false} InterleaveCarries(s: Sys, ls: seq<Label>)
    requires s.handler == Free && Interleave(s, ls).Some?
    ensures Carried(Interleave(s, ls).value.handler, Requests(ls), Looked(s, ls), HandlerSent(s, ls),
                    HandlerLaunched(s, ls))
  {
    if ls != [] {
      var before, lbl := ls[..|ls| - 1], ls[|ls| - 1];
      InterleaveCarries(s, before);
      var t, t' := Interleave(s, before).value, Interleave(s, ls).value;
      NextCarries(t, lbl, Requests(before), Looked(s, before), HandlerSent(s, before), HandlerLaunched(s, before));
      hide Next, Carried;
      assert Requests(before) + [] == Requests(before);
    }
  }

  /** Every request in every interleaving: the handlers have sent exactly the
      actions the requests they looked at are for, in order, but for the one they
      are about to send; they have launched a loop exactly for each start and
      restart that found the job disabled; and the only request not looked at yet
      is the one in the handler's hands. */
  lemma EveryRequest(cap: nat, retries: int, status: SyncStatus, stime: int, ls: seq<Label>)
    requires Interleave(Boot(cap, retries, status, stime), ls).Some?
    ensures var s0 := Boot(cap, retries, status, stime);
            var pc, looked := Interleave(s0, ls).value.handler, Looked(s0, ls);
            && |Requests(ls)| == |looked| + |Undecided(pc)| && Requests(ls)[|looked|..] == Undecided(pc)
            && MeansAll(Requests(ls), looked) == HandlerSent(s0, ls) + Decided(pc)
            && HandlerLaunched(s0, ls) == Launching(Requests(ls), looked)
            && Sent(s0, ls) == Received(s0, ls) + Interleave(s0, ls).value.ctrl
  {
    var s0 := Boot(cap, retries, status, stime);
    InterleaveCarries(s0, ls);
    CtrlHistory(s0, ls);
    hide Interleave, MeansAll, Launching, Sent, Received, Looked, HandlerSent, HandlerLaunched, Requests, Boot;
  }

  // ---------------------------------------------------------------------
  // The schedule
  // ---------------------------------------------------------------------

  function SchedSent(s: Sys, ls: seq<Label>): seq<Ctrl>
    requires Interleave(s, ls).Some?
  {
    if ls == [] then []
    else
      var before, lbl := ls[..|ls| - 1], ls[|ls| - 1];
      SchedSent(s, before) + if lbl.SchedStep? then Puts(Interleave(s, before).value, lbl) else []
  }

  /** How often a tick found the job due. */
  function Dues(s: Sys, ls: seq<Label>): nat
    requires Interleave(s, ls).Some?
  {
    if ls == [] then 0
    else
      var before, lbl := ls[..|ls| - 1], ls[|ls| - 1];
      var slot := Interleave(s, before).value.slot;
      Dues(s, before) +
      if lbl.SchedStep? && lbl.schedMove.Tick? && slot.sched && slot.nextScheduled * 1_000_000_000 < lbl.schedMove.now
      then 1 else 0
  }

  lemma NextDue(s: Sys, lbl: Label)
    requires Next(s, lbl).Some?
    ensures var s' := Next(s, lbl).value;
            var due := lbl.SchedStep? && lbl.schedMove.Tick? && s.slot.sched
                       && s.slot.nextScheduled * 1_000_000_000 < lbl.schedMove.now;
            && (due ==> !s.sched.Popped? && s'.sched.Popped? && !s'.slot.sched)
            && (lbl.SchedStep? ==>
                  if s.sched.Popped? then Puts(s, lbl) == [JobStart] && !s'.sched.Popped? else Puts(s, lbl) == [])
            && (!due && !lbl.SchedStep? ==> s'.sched.Popped? == s.sched.Popped?)
            && (!due && lbl.SchedStep? ==> !s'.sched.Popped?)
  {
    if lbl.SchedStep? {
      hide S.Pop, S.Add;
    } else {
      OtherSched(s, lbl);
      hide StepLoop, StepRun, StepStart, StepSched, StepFront;
    }
  }

  /** Nobody but `runSchedule` moves it, once it is past start-up. */
  lemma OtherSched(s: Sys, lbl: Label)
    requires !lbl.SchedStep? && Next(s, lbl).Some?
    ensures var s' := Next(s, lbl).value;
            s'.sched == s.sched || (lbl.StartStep? && !s.sched.Accepted? && !s.sched.Popped?
                                    && !s'.sched.Accepted? && !s'.sched.Popped?)
  {
    hide StepLoop, StepRun, HandlerReady, NextHandler, Queued;
    match lbl
    case LoopStep(i, move) => LoopStepFrame(s, i, move);
    case RunStep(i, j, move) => RunStepFrame(s, i, j, move);
    case StartStep =>
    case FrontStep(move) =>
  }

  /** Each time the job is found due the schedule is emptied and exactly one start
      is sent; nothing else makes `runSchedule` send anything. */
  lemma {:induction false} EveryDue(s: Sys, ls: seq<Label>)
    requires !s.sched.Popped? && Interleave(s, ls).Some?
    ensures forall n | 0 <= n < |SchedSent(s, ls)| :: SchedSent(s, ls)[n] == JobStart
    ensures |SchedSent(s, ls)| + (if Interleave(s, ls).value.sched.Popped? then 1 else 0) == Dues(s, ls)
  {
    if ls != [] {
      var before, lbl := ls[..|ls| - 1], ls[|ls| - 1];
      EveryDue(s, before);
      NextDue(Interleave(s, before).value, lbl);
      hide Next, Puts;
    }
  }

  // ---------------------------------------------------------------------
  // The gate before AddJob
  // ---------------------------------------------------------------------

  /** The message a step lets pass: the first load of the state finds the job
      ready, or the second finds it halting. */
  function Passes(s: Sys, lbl: Label): seq<JobMessage> {
    if lbl != SchedStep(LoadState) then []
    else
      match s.sched
      case GotMsg(m) => if s.state == StateReady then [m] else []
      case NotReady(m) => if s.state == StateHalting then [m] else []
      case _ => []
  }

  function Passed(s: Sys, ls: seq<Label>): seq<JobMessage>
    requires Interleave(s, ls).Some?
  {
    if ls == [] then []
    else
      var before := ls[..|ls| - 1];
      Passed(s, before) + Passes(Interleave(s, before).value, ls[|ls| - 1])
  }

  /** How often `runSchedule` filled the cell. */
  function Fills(s: Sys, ls: seq<Label>): nat
    requires Interleave(s, ls).Some?
  {
    if ls == [] then 0
    else
      var before := ls[..|ls| - 1];
      Fills(s, before) +
      if ls[|ls| - 1].SchedStep? && !Interleave(s, before).value.slot.sched && Interleave(s, ls).value.slot.sched
      then 1 else 0
  }

  function Asking(m: JobMessage): nat {
    if m.schedule then 1 else 0
  }

  predicate AboutToAdd(pc: SchedPc) {
    pc.Accepted? && pc.m.schedule
  }

  lemma NextPasses(s: Sys, lbl: Label)
    requires Next(s, lbl).Some?
    ensures var s', m := Next(s, lbl).value, Passes(s, lbl);
            && (!lbl.SchedStep? ==> s'.sched == s.sched || (!s.sched.Accepted? && !s'.sched.Accepted?))
            && (m != [] ==> !s.sched.Accepted? && s'.sched == Accepted(m[0]) && m == [m[0]])
            && (lbl.SchedStep? && s'.sched.Accepted? && m == [] ==> s'.sched == s.sched && AboutToAdd(s.sched))
            && (lbl.SchedStep? ==>
                  (AboutToAdd(s.sched) && !AboutToAdd(s'.sched) <==> !s.slot.sched && s'.slot.sched))
  {
    if !lbl.SchedStep? {
      OtherSched(s, lbl);
      hide StepLoop, StepRun, StepStart, StepSched, StepFront;
    }
  }

  /** Every message in every interleaving: `runSchedule` fills the cell once for
      each message that asks to be scheduled and passes, and for no other, but for
      the one it is about to, or stuck on. */
  lemma {:induction false} EveryFill(s: Sys, ls: seq<Label>)
    requires !s.sched.Accepted? && Interleave(s, ls).Some?
    ensures Fills(s, ls) + (if AboutToAdd(Interleave(s, ls).value.sched) then 1 else 0) == Sum(Passed(s, ls), Asking)
  {
    if ls != [] {
      var before, lbl := ls[..|ls| - 1], ls[|ls| - 1];
      EveryFill(s, before);
      var t := Interleave(s, before).value;
      NextPasses(t, lbl);
      assert Passed(s, before) + [] == Passed(s, before);
      if Passes(t, lbl) != [] {
        SumAppend(Passed(s, before), Passes(t, lbl)[0], Asking);
      }
      hide Next, Sum, Passes;
    }
  }
}
