/** The worker and its provider's context together: the limiter's hooks of every
    attempt of every sync run load and store the shared context while the worker
    interleaves its goroutines.
    Models worker/job.go, lines 103 and 142 to 220, with worker/base_provider.go,
    lines 34 to 42, and worker/loglimit_hook.go.
 */
module Joint {
  import opened JobTypes
  import opened Protocol
  import opened Launches
  import opened Safety
  import opened Deadlock
  import opened Overlap
  import W = Wrapper
  import X = Shared

  /** The attempt of a run, `k` counting retries. */
  datatype Owner = Owner(i: nat, j: nat, k: nat)

  datatype Joint = Joint(sys: Sys, world: X.World, owner: seq<Owner>)

  /** A step of the worker; the beginning of an attempt's pre-exec hooks; a load,
      store or lookup of an attempt. */
  datatype JointLabel = Work(lbl: Label) | Open(i: nat, j: nat, file: string) | Hook(t: nat, ok: bool)

  function Start(cap: nat, retries: int, status: SyncStatus, stime: int, workingDir: string, logDir: string): Joint {
    Joint(Boot(cap, retries, status, stime), X.Init(workingDir, logDir, true), [])
  }

  /** The attempt a wrapper stands in. */
  function AttemptOf(pc: W.Pc): Option<nat> {
    match pc
    case PreExec(k) => Some(k)
    case Sending(_, Starting(k)) => Some(k)
    case Starting(k) => Some(k)
    case Running(k, _) => Some(k)
    case PostExec(k, _, _) => Some(k)
    case PostHooks(k, _, _) => Some(k)
    case _ => None
  }

  function PcOf(s: Sys, i: nat, j: nat): Option<W.Pc> {
    if i < |s.core.loops| && j < |s.core.loops[i].runs| && s.core.loops[i].runs[j].phase.Wrapping?
    then Some(s.core.loops[i].runs[j].phase.pc)
    else None
  }

  /** Attempt `t` is one of the run and not over. */
  predicate OpenFor(w: X.World, owner: seq<Owner>, i: nat, j: nat, t: int) {
    && 0 <= t < |owner| && t < |w.attempts|
    && owner[t].i == i && owner[t].j == j && w.attempts[t].pc != X.Over
  }

  /** What the hooks make of a wrapper's step: the sync goes on once the limiter's
      pre-exec is through, and an attempt is left when its hooks are. */
  predicate MayWrap(w: X.World, owner: seq<Owner>, i: nat, j: nat, pc: W.Pc, next: W.Pc) {
    && (pc.PreExec? ==> Owner(i, j, pc.retry) in owner)
    && (pc.PreExec? && AttemptOf(next).Some? ==>
          && (exists t | 0 <= t < |owner| :: OpenFor(w, owner, i, j, t))
          && forall t | 0 <= t < |owner| && OpenFor(w, owner, i, j, t) :: w.attempts[t].pc == X.Running)
    && (AttemptOf(pc).Some? && AttemptOf(next).None? ==>
          forall t | 0 <= t < |owner| :: !OpenFor(w, owner, i, j, t))
  }

  /** Where the wrapper of an attempt stands when the attempt touches the
      context: at its pre-exec hooks, at its last ones, or anywhere if it ends
      without reaching those. */
  predicate HookAt(pc: Option<W.Pc>, k: nat, at: X.Pc, ok: bool) {
    && pc.Some? && AttemptOf(pc.value) == Some(k)
    && (if at.Exiting? || at.Dropping? || (at.Running? && ok) then pc.value.PostHooks?
        else at.Running? || pc.value.PreExec?)
  }

  function JointNext(x: Joint, l: JointLabel): Option<Joint> {
    if x.world.crashed then None
    else
      match l
      case Work(lbl) =>
        (match Next(x.sys, lbl)
         case None => None
         case Some(s) =>
           if IsWrap(lbl) && PcOf(x.sys, lbl.i, lbl.j).Some? && PcOf(s, lbl.i, lbl.j).Some?
              && !MayWrap(x.world, x.owner, lbl.i, lbl.j, PcOf(x.sys, lbl.i, lbl.j).value, PcOf(s, lbl.i, lbl.j).value)
           then None
           else Some(x.(sys := s)))
      case Open(i, j, file) =>
        var pc := PcOf(x.sys, i, j);
        if x.sys.crashed || pc.None? || !pc.value.PreExec? || Owner(i, j, pc.value.retry) in x.owner then None
        else
          (match X.Next(x.world, X.Begin(file))
           case None => None
           case Some(w) => Some(x.(world := w, owner := x.owner + [Owner(i, j, pc.value.retry)])))
      case Hook(t, ok) =>
        if x.sys.crashed || |x.owner| <= t || |x.world.attempts| <= t then None
        else
          var o := x.owner[t];
          if !HookAt(PcOf(x.sys, o.i, o.j), o.k, x.world.attempts[t].pc, ok) then None
          else
            (match X.Next(x.world, X.Advance(t, ok))
             case None => None
             case Some(w) => Some(x.(world := w)))
  }

  function JointRun(x: Joint, ls: seq<JointLabel>): Option<Joint> {
    if ls == [] then Some(x)
    else
      match JointRun(x, ls[..|ls| - 1])
      case None => None
      case Some(y) => JointNext(y, ls[|ls| - 1])
  }

  /** The worker's own steps. */
  function WorkOf(ls: seq<JointLabel>): seq<Label> {
    if ls == [] then []
    else WorkOf(ls[..|ls| - 1]) + match ls[|ls| - 1] { case Work(lbl) => [lbl] case _ => [] }
  }

  /** The worker moves as if there were no context. */
  lemma {:induction false} Projects(x: Joint, ls: seq<JointLabel>)
    requires JointRun(x, ls).Some?
    ensures Interleave(x.sys, WorkOf(ls)) == Some(JointRun(x, ls).value.sys)
  {
    if ls != [] {
      var before, l := ls[..|ls| - 1], ls[|ls| - 1];
      Projects(x, before);
      if l.Work? {
        assert WorkOf(ls)[..|WorkOf(before)|] == WorkOf(before);
      } else {
        assert WorkOf(before) + [] == WorkOf(before);
      }
      hide Next, MayWrap, X.Next;
    }
  }

  // ---------------------------------------------------------------------
  // Attempts take turns if runs do
  // ---------------------------------------------------------------------

  /** An attempt that is not over has its wrapper inside it. */
  predicate Inside(x: Joint, t: nat)
    requires t < |x.owner| && t < |x.world.attempts|
  {
    var o := x.owner[t];
    var pc := PcOf(x.sys, o.i, o.j);
    && pc.Some? && AttemptOf(pc.value) == Some(o.k)
    && (pc.value.PreExec? || x.world.attempts[t].pc.Running? || x.world.attempts[t].pc.Exiting?
        || x.world.attempts[t].pc.Dropping?)
  }

  predicate Tracked(x: Joint) {
    && |x.owner| == |x.world.attempts|
    && forall t | 0 <= t < |x.owner| && x.world.attempts[t].pc != X.Over :: Inside(x, t)
  }

  lemma LoopPcs(l: Loop, move: LoopMove, state: JobState, ctrl: seq<Ctrl>, j: nat)
    requires LoopAfter(l, move, state, ctrl).Some? && j < |l.runs| && l.runs[j].phase.Wrapping?
    ensures var l' := LoopAfter(l, move, state, ctrl).value.0; j < |l'.runs| && l'.runs[j].phase == l.runs[j].phase
  {
  }

  /** A run inside an attempt takes only wrapper steps. */
  lemma RunPcs(r: Run, move: RunMove, bypass: bool)
    requires r.phase.Wrapping? && AttemptOf(r.phase.pc).Some?
    ensures RunAfter(r, move, bypass).None?
  {
  }

  lemma RunStepPcs(s: Sys, i: nat, j: nat, move: RunMove, i': nat, j': nat)
    requires StepRun(s, i', j', move).Some? && PcOf(s, i, j).Some? && AttemptOf(PcOf(s, i, j).value).Some?
    requires !(move.Wrap? && i' == i && j' == j)
    ensures PcOf(StepRun(s, i', j', move).value, i, j) == PcOf(s, i, j)
  {
    RunPcs(s.core.loops[i].runs[j], move, s.core.loops[i].bypass);
    assert i' != i || j' != j;
    RunStepFrame(s, i', j', move);
    hide StepRun;
  }

  /** Only its own steps move a wrapper that is inside an attempt. */
  lemma PcStays(s: Sys, lbl: Label, i: nat, j: nat)
    requires Next(s, lbl).Some? && PcOf(s, i, j).Some? && AttemptOf(PcOf(s, i, j).value).Some?
    requires !(IsWrap(lbl) && lbl.i == i && lbl.j == j)
    ensures PcOf(Next(s, lbl).value, i, j) == PcOf(s, i, j)
  {
    hide StepLoop, StepRun, StepStart, StepSched, HandlerReady, NextHandler, Queued, AttemptOf;
    match lbl
    case LoopStep(i', move) =>
      LoopStepFrame(s, i', move);
      if i' == i {
        LoopPcs(s.core.loops[i], move, s.state, s.ctrl, j);
      }
    case RunStep(i', j', move) => RunStepPcs(s, i, j, move, i', j');
    case StartStep => StartFrame(s);
    case SchedStep(move) => SchedFrame(s, move);
    case FrontStep(move) =>
  }

  /** A wrapper's step stays in its attempt, leaves it, or enters the next. */
  lemma WrapStep(s: Sys, lbl: Label)
    requires IsWrap(lbl) && Next(s, lbl).Some?
    ensures var pc, pc' := PcOf(s, lbl.i, lbl.j), PcOf(Next(s, lbl).value, lbl.i, lbl.j);
            && pc.Some? && pc'.Some?
            && (AttemptOf(pc.value).Some? && AttemptOf(pc'.value).Some? ==>
                  AttemptOf(pc'.value) == AttemptOf(pc.value) && !pc'.value.PreExec?)
  {
    StepInRange(s, lbl);
  }

  lemma WorkTracked(x: Joint, lbl: Label)
    requires Tracked(x) && JointNext(x, Work(lbl)).Some?
    ensures Tracked(JointNext(x, Work(lbl)).value)
  {
    var y := JointNext(x, Work(lbl)).value;
    forall t | 0 <= t < |y.owner| && y.world.attempts[t].pc != X.Over ensures Inside(y, t) {
      var o := x.owner[t];
      assert Inside(x, t);
      if IsWrap(lbl) && lbl.i == o.i && lbl.j == o.j {
        WrapStep(x.sys, lbl);
        assert OpenFor(x.world, x.owner, o.i, o.j, t);
      } else {
        PcStays(x.sys, lbl, o.i, o.j);
      }
    }
  }

  lemma OpenTracked(x: Joint, i: nat, j: nat, file: string)
    requires Tracked(x) && JointNext(x, Open(i, j, file)).Some?
    ensures Tracked(JointNext(x, Open(i, j, file)).value)
  {
    var y := JointNext(x, Open(i, j, file)).value;
    assert y.world.attempts == x.world.attempts + [X.Attempt(file, X.Checking)];
    forall t | 0 <= t < |y.owner| && y.world.attempts[t].pc != X.Over ensures Inside(y, t) {
      assert t < |x.owner| ==> Inside(x, t);
    }
  }

  lemma HookTracked(x: Joint, t: nat, ok: bool)
    requires Tracked(x) && JointNext(x, Hook(t, ok)).Some?
    ensures Tracked(JointNext(x, Hook(t, ok)).value)
  {
    var y := JointNext(x, Hook(t, ok)).value;
    HookMoves(x.world, t, ok);
    forall u | 0 <= u < |y.owner| && y.world.attempts[u].pc != X.Over ensures Inside(y, u) {
      assert x.world.attempts[u].pc != X.Over ==> Inside(x, u);
    }
  }

  lemma HookMoves(w: X.World, t: nat, ok: bool)
    requires X.Next(w, X.Advance(t, ok)).Some?
    ensures var w' := X.Next(w, X.Advance(t, ok)).value;
            && t < |w.attempts| == |w'.attempts| && w'.attempts == w.attempts[t := w'.attempts[t]]
            && w.attempts[t].pc != X.Over && w'.overlap == w.overlap
            && (w.attempts[t].pc.Running? || w.attempts[t].pc.Exiting? || w.attempts[t].pc.Dropping? ==>
                  var pc := w'.attempts[t].pc; pc.Over? || pc.Running? || pc.Exiting? || pc.Dropping?)
  {
  }

  /** When an attempt begins in the only loop, all others are over: its wrapper is
      the only active one, and an earlier attempt of it has been left. */
  lemma NobodyElse(x: Joint, i: nat, j: nat, file: string)
    requires Inv(x.sys) && |x.sys.core.loops| <= 1 && Tracked(x) && JointNext(x, Open(i, j, file)).Some?
    ensures X.AllOver(x.world)
  {
    forall t | 0 <= t < |x.world.attempts| ensures x.world.attempts[t].pc == X.Over {
      if x.world.attempts[t].pc != X.Over {
        assert Inside(x, t);
        var o := x.owner[t];
        assert x.owner[t] in x.owner;
        OnlyActive(x.sys, i, j, o.i, o.j);
      }
    }
  }

  lemma OnlyActive(s: Sys, i: nat, j: nat, i': nat, j': nat)
    requires Inv(s) && |s.core.loops| <= 1 && PcOf(s, i, j).Some? && PcOf(s, i', j').Some?
    ensures i == i' && j == j'
  {
    assert LoopOk(s.core.retries, s.core.loops[0]);
    assert !Quiet(s.core.loops[i].runs[j]) && !Quiet(s.core.loops[i'].runs[j']);
  }

  /** With at most one control loop every step of either side keeps the attempts
      in turn and the context a stack. */
  lemma NextJoint(x: Joint, l: JointLabel, workingDir: string, logDir: string)
    requires Inv(x.sys) && |x.sys.core.loops| <= 1
    requires Tracked(x) && X.Orderly(x.world, workingDir, logDir) && JointNext(x, l).Some?
    ensures Tracked(JointNext(x, l).value) && X.Orderly(JointNext(x, l).value.world, workingDir, logDir)
  {
    match l
    case Work(lbl) => WorkTracked(x, lbl); hide Next, X.Orderly, Tracked, MayWrap;
    case Open(i, j, file) =>
      OpenTracked(x, i, j, file);
      NobodyElse(x, i, j, file);
      X.BeginOrderly(x.world, file, workingDir, logDir);
      hide X.Orderly, Tracked;
    case Hook(t, ok) =>
      HookTracked(x, t, ok);
      X.StepOrderly(x.world, t, ok, workingDir, logDir);
      hide X.Orderly, Tracked;
  }

  /** So does every joint interleaving of a job that is never told to disable
      itself, and starts up enabled or gets at most one start or restart command. */
  lemma {:induction false} JointOrderly(cap: nat, retries: int, status: SyncStatus, stime: int,
                                        workingDir: string, logDir: string, ls: seq<JointLabel>)
    requires JointRun(Start(cap, retries, status, stime, workingDir, logDir), ls).Some?
    requires var x := JointRun(Start(cap, retries, status, stime, workingDir, logDir), ls).value;
             Solo(status, WorkOf(ls), x.sys.seen.starts)
    ensures var x := JointRun(Start(cap, retries, status, stime, workingDir, logDir), ls).value;
            Tracked(x) && X.Orderly(x.world, workingDir, logDir)
  {
    if ls == [] {
      X.InitOrderly(workingDir, logDir, true);
    } else {
      var x0 := Start(cap, retries, status, stime, workingDir, logDir);
      var before, l := ls[..|ls| - 1], ls[|ls| - 1];
      var x := JointRun(x0, before).value;
      Earlier(x, l);
      hide JointNext, Tracked, X.Orderly;
      JointOrderly(cap, retries, status, stime, workingDir, logDir, before);
      Projects(x0, before);
      SoloLoop(cap, retries, status, stime, WorkOf(before));
      BootInv(cap, retries, status, stime);
      InterleaveInv(x0.sys, WorkOf(before));
      hide JointRun, Interleave, Inv;
      NextJoint(x, l, workingDir, logDir);
    }
  }

  /** Commands accepted are never taken back. */
  lemma Earlier(x: Joint, l: JointLabel)
    requires JointNext(x, l).Some?
    ensures x.sys.seen.starts <= JointNext(x, l).value.sys.seen.starts
  {
    if l.Work? {
      NeverFewer(x.sys, l.lbl);
    }
    hide Next, MayWrap, X.Next;
  }

  // ---------------------------------------------------------------------
  // Runs that overlap
  // ---------------------------------------------------------------------

  lemma Go(x0: Joint, ls: seq<JointLabel>, x: Joint, l: JointLabel, x': Joint) returns (ls': seq<JointLabel>)
    requires JointRun(x0, ls) == Some(x) && JointNext(x, l) == Some(x')
    ensures JointRun(x0, ls') == Some(x')
  {
    ls' := ls + [l];
    assert ls'[..|ls|] == ls;
  }

  /** No run has said anything: a wrapper has not begun. */
  predicate Silent(s: Sys) {
    forall i, j | 0 <= i < |s.core.loops| && 0 <= j < |s.core.loops[i].runs| :: SilentRun(s.core.loops[i].runs[j])
  }

  predicate SilentRun(r: Run) {
    r.trace == [] && (r.phase.Wrapping? ==> r.phase.pc == W.START)
  }

  lemma LoopSilent(l: Loop, move: LoopMove, state: JobState, ctrl: seq<Ctrl>, j: nat)
    requires LoopAfter(l, move, state, ctrl).Some? && j < |l.runs|
    ensures var l' := LoopAfter(l, move, state, ctrl).value.0;
            j < |l'.runs| && (SilentRun(l'.runs[j]) ==> SilentRun(l.runs[j]))
  {
  }

  /** A wrapper's first step speaks, and no step comes back from there. */
  lemma RunSilent(s: Sys, i: nat, j: nat, move: RunMove)
    requires StepRun(s, i, j, move).Some? && i < |s.core.loops| && j < |s.core.loops[i].runs|
    requires RunOk(s.core.retries, s.core.loops[i].runs[j])
    ensures var s' := StepRun(s, i, j, move).value;
            && i < |s'.core.loops| && j < |s'.core.loops[i].runs|
            && (SilentRun(s'.core.loops[i].runs[j]) ==> SilentRun(s.core.loops[i].runs[j]) && !move.Wrap?)
  {
    var r := s.core.loops[i].runs[j];
    if r.phase.Wrapping? && r.phase.pc == W.Done {
      W.LanguageFacts(s.core.retries, r.trace);
    }
  }

  lemma NextSilent(s: Sys, lbl: Label)
    requires Inv(s) && Next(s, lbl).Some? && Silent(Next(s, lbl).value)
    ensures Silent(s) && !IsWrap(lbl)
  {
    var s' := Next(s, lbl).value;
    RunsStay(s, lbl);
    if lbl.RunStep? {
      RunStepFrame(s, lbl.i, lbl.j, lbl.runMove);
      assert LoopOk(s.core.retries, s.core.loops[lbl.i]);
      RunSilent(s, lbl.i, lbl.j, lbl.runMove);
    }
    forall i, j | 0 <= i < |s.core.loops| && 0 <= j < |s.core.loops[i].runs|
      ensures SilentRun(s.core.loops[i].runs[j])
    {
      assert SilentRun(s'.core.loops[i].runs[j]);
      RunKept(s, lbl, i, j);
    }
  }

  /** A step of another goroutine does not make a run silent. */
  lemma RunKept(s: Sys, lbl: Label, i: nat, j: nat)
    requires Next(s, lbl).Some? && i < |s.core.loops| && j < |s.core.loops[i].runs|
    ensures var s' := Next(s, lbl).value;
            && i < |s'.core.loops| && j < |s'.core.loops[i].runs|
            && (!(lbl.RunStep? && lbl.i == i && lbl.j == j) && SilentRun(s'.core.loops[i].runs[j]) ==>
                  SilentRun(s.core.loops[i].runs[j]))
  {
    hide StepLoop, StepRun, StepStart, StepSched, HandlerReady, NextHandler, Queued, SilentRun;
    match lbl
    case LoopStep(i', move) =>
      LoopStepFrame(s, i', move);
      if i' == i {
        LoopSilent(s.core.loops[i], move, s.state, s.ctrl, j);
      }
    case RunStep(i', j', move) => RunStepFrame(s, i', j', move);
    case StartStep => StartFrame(s);
    case SchedStep(move) => SchedFrame(s, move);
    case FrontStep(move) =>
  }

  /** An interleaving of the worker in which no wrapper has begun is one of the
      worker and the context. */
  lemma {:induction false} Lift(x0: Joint, ls: seq<Label>) returns (jls: seq<JointLabel>)
    requires Inv(x0.sys) && !x0.world.crashed && Interleave(x0.sys, ls).Some? && Silent(Interleave(x0.sys, ls).value)
    ensures JointRun(x0, jls) == Some(x0.(sys := Interleave(x0.sys, ls).value))
  {
    if ls == [] {
      jls := [];
    } else {
      var before, lbl := ls[..|ls| - 1], ls[|ls| - 1];
      assert ls == before + [lbl];
      InterleaveInv(x0.sys, before);
      NextSilent(Interleave(x0.sys, before).value, lbl);
      hide Inv, Next, Silent;
      jls := Lift(x0, before);
      var y, y' := Interleave(x0.sys, before).value, Interleave(x0.sys, ls).value;
      jls := Go(x0, jls, x0.(sys := y), Work(lbl), x0.(sys := y'));
    }
  }

  // ---------------------------------------------------------------------
  // Two wrappers, step by step
  // ---------------------------------------------------------------------

  /** A loop whose forced run stands at `pc` and has reported `t`. */
  function At(pc: W.Pc, t: seq<JobMessage>): Loop {
    SYNCING.(runs := [Entered(true).(phase := Wrapping(pc), trace := t)])
  }

  function Both(x: Joint, pa: W.Pc, ta: seq<JobMessage>, pb: W.Pc, tb: seq<JobMessage>, mgr: seq<JobMessage>): Joint {
    x.(sys := x.sys.(core := x.sys.core.(loops := [At(pa, ta), At(pb, tb)]), mgr := mgr))
  }

  /** A choice that depends on neither the job's state nor a kill. */
  predicate Plain(c: W.Choice) {
    !c.Kill? && !c.ReadState?
  }

  lemma MoveFirst(x0: Joint, ls: seq<JointLabel>, x: Joint,
                  pa: W.Pc, ta: seq<JobMessage>, pb: W.Pc, tb: seq<JobMessage>,
                  mgr: seq<JobMessage>, c: W.Choice, pc: W.Pc) returns (ls': seq<JointLabel>)
    requires var y := Both(x, pa, ta, pb, tb, mgr);
             && JointRun(x0, ls) == Some(y) && !x.world.crashed && !x.sys.crashed && |mgr| < MGR_CAP
             && Plain(c) && W.Step(x.sys.core.retries, pa, c) == Some(pc)
             && pc != W.Crashed && MayWrap(x.world, x.owner, 0, 0, pa, pc)
    ensures JointRun(x0, ls') == Some(Both(x, pc, ta + W.Emitted(pa), pb, tb, mgr + W.Emitted(pa)))
  {
    hide JointRun;
    var y, y' := Both(x, pa, ta, pb, tb, mgr), Both(x, pc, ta + W.Emitted(pa), pb, tb, mgr + W.Emitted(pa));
    var lbl := RunStep(0, 0, Wrap(c));
    var a, a', b := At(pa, ta), At(pc, ta + W.Emitted(pa)), At(pb, tb);
    assert a.runs[0 := a'.runs[0]] == a'.runs && [a, b][0 := a'] == [a', b];
    assert mgr + [] == mgr;
    assert Next(y.sys, lbl) == Some(y'.sys);
    ls' := Go(x0, ls, y, Work(lbl), y');
  }

  lemma MoveSecond(x0: Joint, ls: seq<JointLabel>, x: Joint,
                   pa: W.Pc, ta: seq<JobMessage>, pb: W.Pc, tb: seq<JobMessage>,
                   mgr: seq<JobMessage>, c: W.Choice, pc: W.Pc) returns (ls': seq<JointLabel>)
    requires var y := Both(x, pa, ta, pb, tb, mgr);
             && JointRun(x0, ls) == Some(y) && !x.world.crashed && !x.sys.crashed && |mgr| < MGR_CAP
             && Plain(c) && W.Step(x.sys.core.retries, pb, c) == Some(pc)
             && pc != W.Crashed && MayWrap(x.world, x.owner, 1, 0, pb, pc)
    ensures JointRun(x0, ls') == Some(Both(x, pa, ta, pc, tb + W.Emitted(pb), mgr + W.Emitted(pb)))
  {
    hide JointRun;
    var y, y' := Both(x, pa, ta, pb, tb, mgr), Both(x, pa, ta, pc, tb + W.Emitted(pb), mgr + W.Emitted(pb));
    var lbl := RunStep(1, 0, Wrap(c));
    var a, b, b' := At(pa, ta), At(pb, tb), At(pc, tb + W.Emitted(pb));
    assert b.runs[0 := b'.runs[0]] == b'.runs && [a, b][1 := b'] == [a, b'];
    assert mgr + [] == mgr;
    assert Next(y.sys, lbl) == Some(y'.sys);
    ls' := Go(x0, ls, y, Work(lbl), y');
  }

  /** Both wrappers make the same step, the first one first. */
  lemma MoveBoth(x0: Joint, ls: seq<JointLabel>, x: Joint, pc: W.Pc, t: seq<JobMessage>, mgr: seq<JobMessage>,
                 c: W.Choice, pc': W.Pc, t': seq<JobMessage>) returns (ls': seq<JointLabel>, mgr': seq<JobMessage>)
    requires JointRun(x0, ls) == Some(Both(x, pc, t, pc, t, mgr)) && !x.world.crashed && !x.sys.crashed
    requires |mgr| < MGR_CAP - 1 && Plain(c) && W.Step(x.sys.core.retries, pc, c) == Some(pc') && pc' != W.Crashed
    requires MayWrap(x.world, x.owner, 0, 0, pc, pc') && MayWrap(x.world, x.owner, 1, 0, pc, pc')
    requires t' == t + W.Emitted(pc)
    ensures JointRun(x0, ls') == Some(Both(x, pc', t', pc', t', mgr')) && |mgr'| <= |mgr| + 2
  {
    hide JointRun, W.Step;
    var e := W.Emitted(pc);
    ls' := MoveFirst(x0, ls, x, pc, t, pc, t, mgr, c, pc');
    ls' := MoveSecond(x0, ls', x, pc', t + e, pc, t, mgr + e, c, pc');
    mgr' := mgr + e + e;
  }

  /** Both wrappers up to their first attempt's pre-exec hooks. */
  lemma ToPreExec(x0: Joint, ls: seq<JointLabel>, x: Joint) returns (ls': seq<JointLabel>, mgr: seq<JobMessage>)
    requires JointRun(x0, ls) == Some(Both(x, W.START, [], W.START, [], [])) && !x.world.crashed && !x.sys.crashed
    requires x.owner == [] && 0 < x.sys.core.retries
    ensures JointRun(x0, ls') == Some(Both(x, W.PreExec(0), [W.PRE_MSG], W.PreExec(0), [W.PRE_MSG], mgr)) && |mgr| <= 6
  {
    hide JointRun;
    var t := [W.PRE_MSG];
    assert [] + t == t && t + [] == t;
    ls', mgr := MoveBoth(x0, ls, x, W.START, [], [], W.Proceed, W.PreJob, t);
    ls', mgr := MoveBoth(x0, ls', x, W.PreJob, t, mgr, W.HookOk, W.Test(0), t);
    ls', mgr := MoveBoth(x0, ls', x, W.Test(0), t, mgr, W.Proceed, W.PreExec(0), t);
  }

  /** Both wrappers through the sync and up to their last hooks, while both
      attempts are running. */
  lemma ToPostHooks(x0: Joint, ls: seq<JointLabel>, x: Joint, mgr: seq<JobMessage>)
    returns (ls': seq<JointLabel>, t: seq<JobMessage>, mgr': seq<JobMessage>)
    requires JointRun(x0, ls) == Some(Both(x, W.PreExec(0), [W.PRE_MSG], W.PreExec(0), [W.PRE_MSG], mgr)) && |mgr| <= 6
    requires !x.world.crashed && !x.sys.crashed && x.owner == [Owner(0, 0, 0), Owner(1, 0, 0)]
    requires |x.world.attempts| == 2 && x.world.attempts[0].pc == x.world.attempts[1].pc == X.Running
    ensures var pc := W.PostHooks(0, true, false); JointRun(x0, ls') == Some(Both(x, pc, t, pc, t, mgr'))
  {
    hide JointRun;
    ls', mgr' := PassPreExec(x0, ls, x, mgr);
    t := [W.PRE_MSG, W.SYNC_MSG];
    assert [W.PRE_MSG] + [W.SYNC_MSG] == t && t + [] == t;
    var sync := W.Sending(W.SYNC_MSG, W.Starting(0));
    ls', mgr' := MoveBoth(x0, ls', x, sync, [W.PRE_MSG], mgr', W.Proceed, W.Starting(0), t);
    ls', mgr' := MoveBoth(x0, ls', x, W.Starting(0), t, mgr', W.ProviderStarted, W.Running(0, false), t);
    ls', mgr' := MoveBoth(x0, ls', x, W.Running(0, false), t, mgr', W.SyncDone(true), W.PostExec(0, true, false), t);
    ls', mgr' := MoveBoth(x0, ls', x, W.PostExec(0, true, false), t, mgr', W.HookOk, W.PostHooks(0, true, false), t);
  }

  lemma PassPreExec(x0: Joint, ls: seq<JointLabel>, x: Joint, mgr: seq<JobMessage>)
    returns (ls': seq<JointLabel>, mgr': seq<JobMessage>)
    requires JointRun(x0, ls) == Some(Both(x, W.PreExec(0), [W.PRE_MSG], W.PreExec(0), [W.PRE_MSG], mgr)) && |mgr| <= 6
    requires !x.world.crashed && !x.sys.crashed && x.owner == [Owner(0, 0, 0), Owner(1, 0, 0)]
    requires |x.world.attempts| == 2 && x.world.attempts[0].pc == x.world.attempts[1].pc == X.Running
    ensures var pc := W.Sending(W.SYNC_MSG, W.Starting(0));
            JointRun(x0, ls') == Some(Both(x, pc, [W.PRE_MSG], pc, [W.PRE_MSG], mgr')) && |mgr'| <= 8
  {
    hide JointRun;
    assert OpenFor(x.world, x.owner, 0, 0, 0) && OpenFor(x.world, x.owner, 1, 0, 1);
    assert [W.PRE_MSG] + [] == [W.PRE_MSG];
    var pc := W.Sending(W.SYNC_MSG, W.Starting(0));
    ls', mgr' := MoveBoth(x0, ls, x, W.PreExec(0), [W.PRE_MSG], mgr, W.HookOk, pc, [W.PRE_MSG]);
  }

  /** Both runs begin their attempt. */
  lemma OpenBoth(x0: Joint, ls: seq<JointLabel>, x: Joint, a: string, b: string) returns (ls': seq<JointLabel>)
    requires JointRun(x0, ls) == Some(x) && x.owner == [] && x.world.attempts == [] && x.world.overlap
    requires !x.world.crashed && !x.sys.crashed && X.H.EndsInLog(a) && X.H.EndsInLog(b)
    requires PcOf(x.sys, 0, 0) == PcOf(x.sys, 1, 0) == Some(W.PreExec(0))
    ensures JointRun(x0, ls') ==
            Some(x.(world := x.world.(attempts := [X.Attempt(a, X.Checking), X.Attempt(b, X.Checking)]),
                    owner := [Owner(0, 0, 0), Owner(1, 0, 0)]))
  {
    hide JointRun, PcOf, X.H.EndsInLog;
    var one, two := X.Attempt(a, X.Checking), X.Attempt(b, X.Checking);
    var x1 := x.(world := x.world.(attempts := [one]), owner := [Owner(0, 0, 0)]);
    assert [] + [one] == [one] && [] + [Owner(0, 0, 0)] == x1.owner;
    ls' := Go(x0, ls, x, Open(0, 0, a), x1);
    var x2 := x.(world := x.world.(attempts := [one, two]), owner := [Owner(0, 0, 0), Owner(1, 0, 0)]);
    assert [one] + [two] == [one, two] && x1.owner + [Owner(1, 0, 0)] == x2.owner;
    ls' := Go(x0, ls', x1, Open(1, 0, b), x2);
  }

  /** The race of two attempts, while both wrappers stand where their hooks are. */
  lemma {:induction false} Stages(x0: Joint, ls: seq<JointLabel>, x: Joint, n0: X.Node, a: string, b: string,
                                  from: nat, to: nat) returns (ls': seq<JointLabel>)
    requires from <= to <= |X.TURN| && n0.parent == None && !x.world.crashed && !x.sys.crashed
    requires x.owner == [Owner(0, 0, 0), Owner(1, 0, 0)]
    requires JointRun(x0, ls) == Some(x.(world := X.Stage(x.world, n0, a, b, from)))
    requires var p, q := PcOf(x.sys, 0, 0), PcOf(x.sys, 1, 0);
             && p == q && p.Some? && AttemptOf(p.value) == Some(0)
             && ((to <= X.LOST && p.value.PreExec?) || (X.LOST <= from && p.value.PostHooks?))
    ensures JointRun(x0, ls') == Some(x.(world := X.Stage(x.world, n0, a, b, to)))
  {
    hide JointRun, PcOf;
    if from == to {
      ls' := ls;
    } else {
      var m := to - 1;
      ls' := Stages(x0, ls, x, n0, a, b, from, m);
      X.StageStep(x.world, n0, a, b, m);
      var y := x.(world := X.Stage(x.world, n0, a, b, m));
      StageHook(x, n0, a, b, m);
      hide HookAt, AttemptOf, X.Stage;
      ls' := Go(x0, ls', y, Hook(X.TURN[m], true), x.(world := X.Stage(x.world, n0, a, b, to)));
    }
  }

  lemma StageHook(x: Joint, n0: X.Node, a: string, b: string, m: nat)
    requires m < |X.TURN| && x.owner == [Owner(0, 0, 0), Owner(1, 0, 0)] && !x.world.crashed
    requires var p, q := PcOf(x.sys, 0, 0), PcOf(x.sys, 1, 0);
             && p == q && p.Some? && AttemptOf(p.value) == Some(0)
             && (if m < X.LOST then p.value.PreExec? else p.value.PostHooks?)
    ensures var y, t := x.(world := X.Stage(x.world, n0, a, b, m)), X.TURN[m];
            && t < 2 && |y.world.attempts| == 2 && !y.world.crashed
            && HookAt(PcOf(y.sys, y.owner[t].i, y.owner[t].j), y.owner[t].k, y.world.attempts[t].pc, true)
  {
    hide PcOf;
  }

  /** Two force starts to a disabled job whose provider allows an attempt: the
      attempts of the two runs race for the context. */
  lemma JointRace(cap: nat, retries: int, stime: int, workingDir: string, logDir: string, m: nat)
    returns (ls: seq<JointLabel>, x: Joint)
    requires 0 < retries && (m == X.LOST || m == |X.TURN|)
    ensures JointRun(Start(cap, retries, Disabled, stime, workingDir, logDir), ls) == Some(x)
    ensures var w0 := X.Init(workingDir, logDir, true);
            x.world == X.Stage(w0, w0.nodes[0], "a.log", "b.log", m)
    ensures x.sys.seen.starts == 2 && x.sys.seen.injects == 0
  {
    var x0 := Start(cap, retries, Disabled, stime, workingDir, logDir);
    var n0, a, b := x0.world.nodes[0], "a.log", "b.log";
    assert a[1..] == ".log" && b[1..] == ".log";
    ls, x := BothAtPreExec(cap, retries, stime, workingDir, logDir);
    var mgr := x.sys.mgr;
    hide JointRun;
    ls := OpenBoth(x0, ls, x, a, b);
    x := x.(owner := [Owner(0, 0, 0), Owner(1, 0, 0)]);
    var w := x.world;
    assert w.nodes == [n0];
    assert x.(world := X.Stage(w, n0, a, b, 0)).world.attempts == [X.Attempt(a, X.Checking), X.Attempt(b, X.Checking)];
    ls := Stages(x0, ls, x, n0, a, b, 0, X.LOST);
    if m == X.LOST {
      x := x.(world := X.Stage(w, n0, a, b, m));
    } else {
      ls, x := RaceOn(x0, ls, x, n0, a, b);
    }
  }

  /** Both wrappers of an overlap at their first pre-exec hooks. */
  lemma BothAtPreExec(cap: nat, retries: int, stime: int, workingDir: string, logDir: string)
    returns (ls: seq<JointLabel>, x: Joint)
    requires 0 < retries
    ensures JointRun(Start(cap, retries, Disabled, stime, workingDir, logDir), ls) == Some(x)
    ensures x.world == X.Init(workingDir, logDir, true) && x.owner == [] && |x.sys.mgr| <= 6 && !x.sys.crashed
    ensures x == Both(x, W.PreExec(0), [W.PRE_MSG], W.PreExec(0), [W.PRE_MSG], x.sys.mgr)
    ensures x.sys.seen.starts == 2 && x.sys.seen.injects == 0
  {
    var x0 := Start(cap, retries, Disabled, stime, workingDir, logDir);
    BootInv(cap, retries, Disabled, stime);
    var sls, s := TwoSyncing(cap, retries, stime);
    ls := Lift(x0, sls);
    hide JointRun, Interleave;
    var y := x0.(sys := s);
    assert At(W.START, []) == SYNCING;
    assert y == Both(y, W.START, [], W.START, [], []);
    var mgr: seq<JobMessage>;
    ls, mgr := ToPreExec(x0, ls, y);
    x := Both(y, W.PreExec(0), [W.PRE_MSG], W.PreExec(0), [W.PRE_MSG], mgr);
  }

  /** The race goes on to its end. */
  lemma RaceOn(x0: Joint, ls: seq<JointLabel>, x: Joint, n0: X.Node, a: string, b: string)
    returns (ls': seq<JointLabel>, x': Joint)
    requires JointRun(x0, ls) == Some(x.(world := X.Stage(x.world, n0, a, b, X.LOST)))
    requires x == Both(x, W.PreExec(0), [W.PRE_MSG], W.PreExec(0), [W.PRE_MSG], x.sys.mgr) && |x.sys.mgr| <= 6
    requires !x.world.crashed && !x.sys.crashed && x.owner == [Owner(0, 0, 0), Owner(1, 0, 0)] && n0.parent == None
    ensures JointRun(x0, ls') == Some(x') && x'.world == X.Stage(x.world, n0, a, b, |X.TURN|)
    ensures x'.sys.seen == x.sys.seen
  {
    hide JointRun;
    var y := x.(world := X.Stage(x.world, n0, a, b, X.LOST));
    var t, mgr: seq<JobMessage>;
    ls', t, mgr := ToPostHooks(x0, ls, y, x.sys.mgr);
    var pc := W.PostHooks(0, true, false);
    var z := Both(x, pc, t, pc, t, mgr);
    assert z.(world := X.Stage(z.world, n0, a, b, X.LOST)) == Both(y, pc, t, pc, t, mgr);
    ls' := Stages(x0, ls', z, n0, a, b, X.LOST, |X.TURN|);
    x' := z.(world := X.Stage(x.world, n0, a, b, |X.TURN|));
  }

  // ---------------------------------------------------------------------
  // Exactly when
  // ---------------------------------------------------------------------

  /** Without an attempt the context is left alone. */
  lemma {:induction false} NoAttempts(cap: nat, retries: int, status: SyncStatus, stime: int,
                                      workingDir: string, logDir: string, ls: seq<JointLabel>)
    requires retries <= 0 && JointRun(Start(cap, retries, status, stime, workingDir, logDir), ls).Some?
    ensures var x := JointRun(Start(cap, retries, status, stime, workingDir, logDir), ls).value;
            x.world == X.Init(workingDir, logDir, true)
  {
    if ls != [] {
      var x0 := Start(cap, retries, status, stime, workingDir, logDir);
      var before, l := ls[..|ls| - 1], ls[|ls| - 1];
      NoAttempts(cap, retries, status, stime, workingDir, logDir, before);
      var x := JointRun(x0, before).value;
      Projects(x0, before);
      BootInv(cap, retries, status, stime);
      InterleaveInv(x0.sys, WorkOf(before));
      SameConfig(x0.sys, WorkOf(before));
      hide JointNext, Inv, WorkOf;
      IdleStep(x, l);
    }
  }

  lemma IdleStep(x: Joint, l: JointLabel)
    requires Inv(x.sys) && x.sys.core.retries <= 0 && x.world.attempts == [] && JointNext(x, l).Some?
    ensures JointNext(x, l).value.world == x.world
  {
    if l.Open? {
      NoPreExec(x.sys, l.i, l.j);
    }
    hide Next, Inv, MayWrap, PcOf;
  }

  lemma NoPreExec(s: Sys, i: nat, j: nat)
    requires Inv(s) && s.core.retries <= 0
    ensures PcOf(s, i, j).Some? ==> !PcOf(s, i, j).value.PreExec?
  {
    if PcOf(s, i, j).Some? {
      assert LoopOk(s.core.retries, s.core.loops[i]) && RunOk(s.core.retries, s.core.loops[i].runs[j]);
    }
  }

  /** An interleaving of worker and context with at most `starts` start or restart
      commands and no injected jobDisable, that ends in a bad context. */
  ghost predicate Fails(cap: nat, retries: int, status: SyncStatus, stime: int, workingDir: string, logDir: string,
                        starts: nat, ls: seq<JointLabel>, bad: X.World -> bool) {
    var x := JointRun(Start(cap, retries, status, stime, workingDir, logDir), ls);
    && x.Some? && x.value.sys.seen.starts <= starts && FrontStep(Inject(JobDisable)) !in WorkOf(ls)
    && bad(x.value.world)
  }

  lemma SafeContext(cap: nat, retries: int, status: SyncStatus, stime: int, workingDir: string, logDir: string,
                    starts: nat, ls: seq<JointLabel>)
    requires !(status == Disabled && 2 <= starts && 0 < retries)
    ensures !Fails(cap, retries, status, stime, workingDir, logDir, starts, ls, X.WrongLogOf())
    ensures !Fails(cap, retries, status, stime, workingDir, logDir, starts, ls, X.NoContext())
  {
    var r := JointRun(Start(cap, retries, status, stime, workingDir, logDir), ls);
    if r.Some? && r.value.sys.seen.starts <= starts && FrontStep(Inject(JobDisable)) !in WorkOf(ls) {
      if retries <= 0 {
        NoAttempts(cap, retries, status, stime, workingDir, logDir, ls);
      } else {
        JointOrderly(cap, retries, status, stime, workingDir, logDir, ls);
        X.OrderlyShows(r.value.world, workingDir, logDir);
      }
    }
  }

  /** Exactly when the worker's runs spoil their provider's context: an attempt can
      see another one's log file, and the context can become nil, each if and only
      if the job starts up disabled, gets two start or restart commands, and its
      provider allows an attempt. */
  lemma ContextIff(cap: nat, retries: int, status: SyncStatus, stime: int, workingDir: string, logDir: string,
                   starts: nat)
    ensures (exists ls :: Fails(cap, retries, status, stime, workingDir, logDir, starts, ls, X.WrongLogOf()))
            <==> status == Disabled && 2 <= starts && 0 < retries
    ensures (exists ls :: Fails(cap, retries, status, stime, workingDir, logDir, starts, ls, X.NoContext()))
            <==> status == Disabled && 2 <= starts && 0 < retries
  {
    if status == Disabled && 2 <= starts && 0 < retries {
      var x0, w0 := Start(cap, retries, status, stime, workingDir, logDir), X.Init(workingDir, logDir, true);
      var ls1, x1 := JointRace(cap, retries, stime, workingDir, logDir, X.LOST);
      var ls2, x2 := JointRace(cap, retries, stime, workingDir, logDir, |X.TURN|);
      NotInjected(x0, ls1);
      NotInjected(x0, ls2);
      hide JointRun;
      X.LostIsWrong(w0, w0.nodes[0], "a.log", "b.log");
      assert Fails(cap, retries, status, stime, workingDir, logDir, starts, ls1, X.WrongLogOf());
      assert Fails(cap, retries, status, stime, workingDir, logDir, starts, ls2, X.NoContext());
    } else {
      forall ls: seq<JointLabel>
        ensures !Fails(cap, retries, status, stime, workingDir, logDir, starts, ls, X.WrongLogOf())
        ensures !Fails(cap, retries, status, stime, workingDir, logDir, starts, ls, X.NoContext())
      {
        SafeContext(cap, retries, status, stime, workingDir, logDir, starts, ls);
      }
    }
  }

  lemma NotInjected(x: Joint, ls: seq<JointLabel>)
    requires JointRun(x, ls).Some? && JointRun(x, ls).value.sys.seen.injects == x.sys.seen.injects
    ensures FrontStep(Inject(JobDisable)) !in WorkOf(ls)
  {
    Projects(x, ls);
    NoInjects(x.sys, WorkOf(ls), JobDisable);
  }
}
