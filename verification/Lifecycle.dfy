/** What becomes of a provider's calls: the running flag comes down with the call
    that raised it, calls fail only for the reasons they should, and every
    interleaving without new calls comes to an end, at which all calls have
    returned and the provider can be run again.
    Models worker/rsync_provider.go, lines 103 to 147, worker/base_provider.go,
    lines 144 to 165, and worker/runner.go, lines 62 to 110.
 */
module Lifecycle {
  import opened JobTypes
  import opened Sums
  import opened Process

  // ---------------------------------------------------------------------
  // The running flag
  // ---------------------------------------------------------------------

  /** While the flag is up, a `Run` that has raised it and not lowered it yet
      answers for the provider's command. */
  ghost predicate FlagOk(p: Provider) {
    p.running ==> p.cmd.Some? && exists t :: AnsweredBy(p, p.cmd.value, t) && !p.calls[t].RFlag?
  }

  lemma StartFlag(p: Provider, t: nat, choice: bool)
    requires Inv(p) && FlagOk(p) && t < |p.calls| && InStart(p.calls[t]) && StepStart(p, t, choice).Some?
    ensures FlagOk(StepStart(p, t, choice).value)
  {
    var p' := StepStart(p, t, choice).value;
    assert CallOk(p, t);
    hide Inv, CmdOk;
    if p.calls[t].RFlag? {
      assert AnsweredBy(p', p'.cmd.value, t);
    } else if p'.running {
      var w :| AnsweredBy(p, p.cmd.value, w) && !p.calls[w].RFlag?;
      assert AnsweredBy(p', p.cmd.value, w);
    }
  }

  lemma OtherFlag(p: Provider, p': Provider, t: nat)
    requires FlagOk(p) && p'.running == p.running && p'.cmd == p.cmd && t < |p.calls| <= |p'.calls|
    requires forall u | 0 <= u < |p.calls| && u != t :: p'.calls[u] == p.calls[u]
    requires Answers(p'.calls[t]) == Answers(p.calls[t]) && (p'.calls[t].RFlag? ==> p.calls[t].RFlag?)
    ensures FlagOk(p')
  {
    if p.running {
      var w :| AnsweredBy(p, p.cmd.value, w) && !p.calls[w].RFlag?;
      assert AnsweredBy(p', p.cmd.value, w);
    }
  }

  lemma NextFlag(p: Provider, lbl: Label)
    requires Inv(p) && FlagOk(p) && Next(p, lbl).Some?
    ensures FlagOk(Next(p, lbl).value)
  {
    var p' := Next(p, lbl).value;
    if !lbl.Advance? {
      hide Inv;
      if p.running {
        var w :| AnsweredBy(p, p.cmd.value, w) && !p.calls[w].RFlag?;
        assert AnsweredBy(p', p.cmd.value, w);
      }
    } else if InStart(p.calls[lbl.t]) {
      StartFlag(p, lbl.t, lbl.choice);
      hide Inv, FlagOk, StepStart;
    } else if InWait(p.calls[lbl.t]) {
      WaitEffect(p, lbl.t);
      WaitPc(p, lbl.t);
      hide Inv, FlagOk, StepWait, PcOk;
      OtherFlag(p, p', lbl.t);
    } else {
      TerminateEffect(p, lbl.t, lbl.choice);
      assert !p'.calls[lbl.t].RFlag?;
      hide Inv, FlagOk, StepTerminate;
      OtherFlag(p, p', lbl.t);
    }
  }

  lemma {:induction false} FlagHolds(ls: seq<Label>)
    requires Interleave(FRESH, ls).Some?
    ensures FlagOk(Interleave(FRESH, ls).value)
  {
    if ls != [] {
      var before := ls[..|ls| - 1];
      FlagHolds(before);
      Reachable(before);
      hide Inv, Next, FlagOk;
      NextFlag(Interleave(FRESH, before).value, ls[|ls| - 1]);
    }
  }

  /** In every interleaving the flag is up exactly while a `Run` that has raised
      it, and not lowered it again, answers for the provider's command; so a call
      that finds it up, as a refused `Run` does, finds another `Run` under way. */
  lemma RunningIff(ls: seq<Label>)
    requires Interleave(FRESH, ls).Some?
    ensures var p := Interleave(FRESH, ls).value;
            p.running <==> exists t, c: nat :: AnsweredBy(p, c, t) && !p.calls[t].RFlag?
  {
    FlagHolds(ls);
    Reachable(ls);
    var p := Interleave(FRESH, ls).value;
    hide Interleave, CmdOk;
    forall t, c: nat | AnsweredBy(p, c, t) && !p.calls[t].RFlag? ensures p.running {
      assert CallOk(p, t);
    }
  }

  // ---------------------------------------------------------------------
  // Why calls fail, and who is killed
  // ---------------------------------------------------------------------

  /** A step at which a call meets its reason to fail: a `Run` finds the flag up,
      or cannot open its log or start its process; the process a `Terminate` is to
      signal was never started or has been waited for. */
  predicate Meets(p: Provider, lbl: Label, t: nat) {
    && lbl.Advance? && lbl.t == t && t < |p.calls|
    && match p.calls[t]
       case RCheck => p.running
       case RPrepare(_) => !lbl.choice
       case RExec(_) => !lbl.choice
       case TSignal(id) => id < |p.cmds| && (p.cmds[id].proc.Unborn? || p.cmds[id].proc.Reaped?)
       case _ => false
  }

  predicate HasMet(ls: seq<Label>, t: nat)
    requires Interleave(FRESH, ls).Some?
  {
    ls != [] && (HasMet(ls[..|ls| - 1], t) || Meets(Interleave(FRESH, ls[..|ls| - 1]).value, ls[|ls| - 1], t))
  }

  predicate Fails(pc: Pc) {
    pc == RFail || pc == TUnlock(false) || pc == Returned(false)
  }

  lemma StepFails(p: Provider, t: nat, choice: bool)
    requires Next(p, Advance(t, choice)).Some?
    ensures var p' := Next(p, Advance(t, choice)).value;
            && t < |p.calls| && p'.calls == p.calls[t := p'.calls[t]]
            && (Fails(p'.calls[t]) <==> Fails(p.calls[t]) || Meets(p, Advance(t, choice), t))
  {
    if InStart(p.calls[t]) {
      StartFails(p, t, choice);
      hide StepStart, Fails, Meets;
    } else if InWait(p.calls[t]) {
      hide StepStart, StepTerminate;
    } else {
      TerminateFails(p, t, choice);
      hide StepTerminate, Fails, Meets;
    }
  }

  lemma StartFails(p: Provider, t: nat, choice: bool)
    requires t < |p.calls| && InStart(p.calls[t]) && StepStart(p, t, choice).Some?
    ensures var p' := StepStart(p, t, choice).value;
            && t < |p'.calls| && p'.calls == p.calls[t := p'.calls[t]]
            && (Fails(p'.calls[t]) <==> Fails(p.calls[t]) || Meets(p, Advance(t, choice), t))
  {
  }

  lemma TerminateFails(p: Provider, t: nat, choice: bool)
    requires t < |p.calls| && !InStart(p.calls[t]) && StepTerminate(p, t, choice).Some?
    ensures var p' := StepTerminate(p, t, choice).value;
            && t < |p'.calls| && p'.calls == p.calls[t := p'.calls[t]]
            && (Fails(p'.calls[t]) <==> Fails(p.calls[t]) || Meets(p, Advance(t, choice), t))
  {
  }

  lemma NextFails(p: Provider, lbl: Label, t: nat)
    requires Next(p, lbl).Some?
    ensures var p' := Next(p, lbl).value;
            && |p.calls| <= |p'.calls|
            && (t < |p.calls| ==> (Fails(p'.calls[t]) <==> Fails(p.calls[t]) || Meets(p, lbl, t)))
            && (|p.calls| <= t < |p'.calls| ==> !Fails(p'.calls[t]))
  {
    if lbl.Advance? {
      StepFails(p, lbl.t, lbl.choice);
      hide Next, Fails;
    }
  }

  /** A call fails exactly if it has met a reason. */
  lemma {:induction false} FailsIff(ls: seq<Label>, t: nat)
    requires Interleave(FRESH, ls).Some?
    ensures var p := Interleave(FRESH, ls).value;
            if t < |p.calls| then Fails(p.calls[t]) <==> HasMet(ls, t) else !HasMet(ls, t)
  {
    if ls != [] {
      var before := ls[..|ls| - 1];
      FailsIff(before, t);
      NextFails(Interleave(FRESH, before).value, ls[|ls| - 1], t);
      hide Next, Fails;
    }
  }

  /** A step at which two seconds have passed since a `Terminate` sent its signal. */
  predicate RunsOut(p: Provider, lbl: Label, c: nat) {
    lbl.Advance? && lbl.choice && lbl.t < |p.calls| && p.calls[lbl.t] == TSelect(c)
  }

  predicate HasRunOut(ls: seq<Label>, c: nat)
    requires Interleave(FRESH, ls).Some?
  {
    ls != [] && (HasRunOut(ls[..|ls| - 1], c) || RunsOut(Interleave(FRESH, ls[..|ls| - 1]).value, ls[|ls| - 1], c))
  }

  /** Commands keep their marks, and new ones have none. */
  predicate SameMarks(cmds: seq<Cmd>, cmds': seq<Cmd>) {
    && |cmds| <= |cmds'|
    && (forall c | 0 <= c < |cmds| :: cmds'[c].killed == cmds[c].killed)
    && forall c | |cmds| <= c < |cmds'| :: !cmds'[c].killed
  }

  lemma StartMarks(p: Provider, t: nat, choice: bool)
    requires t < |p.calls| && StepStart(p, t, choice).Some?
    ensures SameMarks(p.cmds, StepStart(p, t, choice).value.cmds)
  {
  }

  lemma WaitMarks(p: Provider, t: nat)
    requires t < |p.calls| && StepWait(p, t).Some?
    ensures SameMarks(p.cmds, StepWait(p, t).value.cmds)
  {
  }

  lemma TerminateMarks(p: Provider, t: nat, choice: bool)
    requires t < |p.calls| && StepTerminate(p, t, choice).Some?
    ensures var cmds, cmds' := p.cmds, StepTerminate(p, t, choice).value.cmds;
            && |cmds'| == |cmds| && (p.calls[t].TSelect? && choice ==> p.calls[t].id < |cmds|)
            && forall c | 0 <= c < |cmds| ::
                 cmds'[c].killed <==> cmds[c].killed || (choice && p.calls[t] == TSelect(c))
  {
  }

  lemma NextKilled(p: Provider, lbl: Label, c: nat)
    requires Next(p, lbl).Some?
    ensures var p' := Next(p, lbl).value;
            && |p.cmds| <= |p'.cmds|
            && (c < |p.cmds| ==> (p'.cmds[c].killed <==> p.cmds[c].killed || RunsOut(p, lbl, c)))
            && (|p.cmds| <= c ==> !RunsOut(p, lbl, c) && (c < |p'.cmds| ==> !p'.cmds[c].killed))
  {
    if lbl.Advance? {
      if InStart(p.calls[lbl.t]) {
        StartMarks(p, lbl.t, lbl.choice);
      } else if InWait(p.calls[lbl.t]) {
        WaitMarks(p, lbl.t);
      } else {
        TerminateMarks(p, lbl.t, lbl.choice);
      }
      hide StepStart, StepWait, StepTerminate;
    }
  }

  /** A process is sent SIGKILL exactly if some `Terminate` ran out of its two
      seconds on it. */
  lemma {:induction false} KilledIff(ls: seq<Label>, c: nat)
    requires Interleave(FRESH, ls).Some?
    ensures var p := Interleave(FRESH, ls).value;
            if c < |p.cmds| then p.cmds[c].killed <==> HasRunOut(ls, c) else !HasRunOut(ls, c)
  {
    if ls != [] {
      var before := ls[..|ls| - 1];
      KilledIff(before, c);
      NextKilled(Interleave(FRESH, before).value, ls[|ls| - 1], c);
      hide Next;
    }
  }

  // ---------------------------------------------------------------------
  // Everything comes to an end
  // ---------------------------------------------------------------------

  predicate Over(pc: Pc) {
    pc.Returned? || pc.Waited?
  }

  /** How many steps a call has left, at most, with the exit of the process it
      may start. */
  function Left(pc: Pc): nat {
    match pc
    case RLock => 15
    case RCheck => 14
    case RPrepare(_) => 13
    case RExec(_) => 12
    case RFlag(_) => 10
    case RUnlock(_) => 9
    case RStarted(_) => 8
    case RLoad(_) => 7
    case WLock(_, _) => 6
    case WSelect(_, _) => 5
    case WBlocked(_, _) => 4
    case WClose(_, _, _) => 3
    case WUnlock(_, _, _) => 2
    case RClear(_, _) => 1
    case RFail => 1
    case TLock => 5
    case TCheck => 4
    case TSignal(_) => 3
    case TSelect(_) => 2
    case TUnlock(_) => 1
    case _ => 0
  }

  function Running(cmd: Cmd): nat {
    if cmd.proc.Alive? then 1 else 0
  }

  function Work(p: Provider): nat {
    Sum(p.calls, Left) + Sum(p.cmds, Running)
  }

  predicate NewCall(lbl: Label) {
    lbl.CallRun? || lbl.CallTerminate? || lbl.CallWait?
  }

  /** A call moves on, and changes at most one command. */
  lemma Works(p: Provider, p': Provider, t: nat, c: nat)
    requires t < |p.calls| == |p'.calls| && p'.calls == p.calls[t := p'.calls[t]]
    requires p'.cmds == p.cmds || p'.cmds == p.cmds + [NEW_CMD]
             || (c < |p.cmds| == |p'.cmds| && p'.cmds == p.cmds[c := p'.cmds[c]])
    requires var more := if c < |p.cmds| == |p'.cmds| then Running(p'.cmds[c]) as int - Running(p.cmds[c]) else 0;
             Left(p'.calls[t]) + more < Left(p.calls[t])
    ensures Work(p') < Work(p)
  {
    SumUpdate(p.calls, t, p'.calls[t], Left);
    SumAppend(p.cmds, NEW_CMD, Running);
    if c < |p.cmds| == |p'.cmds| {
      SumUpdate(p.cmds, c, p'.cmds[c], Running);
    }
    hide Sum, Left;
  }

  lemma StartWorks(p: Provider, t: nat, choice: bool)
    requires t < |p.calls| && StepStart(p, t, choice).Some?
    ensures Work(StepStart(p, t, choice).value) < Work(p)
  {
    hide Work;
    Works(p, StepStart(p, t, choice).value, t, if p.calls[t].RExec? then p.calls[t].id else 0);
  }

  lemma WaitWorks(p: Provider, t: nat)
    requires t < |p.calls| && StepWait(p, t).Some?
    ensures Work(StepWait(p, t).value) < Work(p)
  {
    hide Work;
    Works(p, StepWait(p, t).value, t, p.calls[t].c);
  }

  lemma TerminateWorks(p: Provider, t: nat, choice: bool)
    requires t < |p.calls| && StepTerminate(p, t, choice).Some?
    ensures Work(StepTerminate(p, t, choice).value) < Work(p)
  {
    hide Work;
    Works(p, StepTerminate(p, t, choice).value, t, if p.calls[t].TSelect? then p.calls[t].id else 0);
  }

  lemma NextWorks(p: Provider, lbl: Label)
    requires Next(p, lbl).Some? && !NewCall(lbl)
    ensures Work(Next(p, lbl).value) < Work(p)
  {
    match lbl
    case Exit(c, err) => SumUpdate(p.cmds, c, p.cmds[c].(proc := Zombie(err)), Running); hide Sum;
    case Advance(t, choice) =>
      hide Work, StepStart, StepWait, StepTerminate;
      if InStart(p.calls[t]) {
        StartWorks(p, t, choice);
      } else if InWait(p.calls[t]) {
        WaitWorks(p, t);
      } else {
        TerminateWorks(p, t, choice);
      }
  }

  /** Without new calls every interleaving has fewer steps than there is work. */
  lemma {:induction false} Ends(p: Provider, ls: seq<Label>)
    requires Interleave(p, ls).Some? && forall lbl | lbl in ls :: !NewCall(lbl)
    ensures |ls| + Work(Interleave(p, ls).value) <= Work(p)
  {
    if ls != [] {
      Ends(p, ls[..|ls| - 1]);
      assert ls[|ls| - 1] in ls;
      hide Next, Work;
      NextWorks(Interleave(p, ls[..|ls| - 1]).value, ls[|ls| - 1]);
    }
  }

  /** The call that has a step to take, or the process that can exit. */
  lemma CallMoves(p: Provider, t: nat) returns (lbl: Label)
    requires Inv(p) && t < |p.calls| && !Over(p.calls[t])
    requires p.calls[t].RLock? || p.calls[t].TLock? ==> p.lock.None?
    requires p.calls[t].WLock? ==> p.calls[t].c < |p.cmds| && p.cmds[p.calls[t].c].owner.None?
    ensures !NewCall(lbl) && Next(p, lbl).Some?
  {
    var pc := p.calls[t];
    assert CallOk(p, t);
    assert p.running ==> p.cmd.Some?;
    if InWait(pc) {
      assert pc.c < |p.cmds|;
      assert CmdOk(p, pc.c);
    }
    hide Inv, CmdOk;
    if pc.WBlocked? && p.cmds[pc.c].proc.Alive? {
      lbl := Exit(pc.c, 0);
    } else {
      lbl := Advance(t, true);
    }
  }

  /** No deadlock: as long as a call is not over, some call has a step to take, or
      the process it waits for is still running. */
  lemma SomeoneMoves(ls: seq<Label>, t: nat) returns (lbl: Label)
    requires Interleave(FRESH, ls).Some?
    requires t < |Interleave(FRESH, ls).value.calls| && !Over(Interleave(FRESH, ls).value.calls[t])
    ensures !NewCall(lbl) && Next(Interleave(FRESH, ls).value, lbl).Some?
  {
    Reachable(ls);
    var p := Interleave(FRESH, ls).value;
    hide Interleave, Next;
    var pc := p.calls[t];
    if (pc.RLock? || pc.TLock?) && p.lock.Some? {
      lbl := CallMoves(p, p.lock.value);
    } else if pc.WLock? {
      assert CallOk(p, t);
      assert CmdOk(p, pc.c);
      lbl := CallMoves(p, if p.cmds[pc.c].owner.Some? then p.cmds[pc.c].owner.value else t);
    } else {
      lbl := CallMoves(p, t);
    }
  }

  /** When nothing but a new call can happen, all calls are over, the lock is
      free, the flag is down and no process is left. */
  lemma AtTheEnd(ls: seq<Label>)
    requires Interleave(FRESH, ls).Some?
    requires forall lbl | !NewCall(lbl) :: Next(Interleave(FRESH, ls).value, lbl).None?
    ensures var p := Interleave(FRESH, ls).value;
            && (forall t | 0 <= t < |p.calls| :: Over(p.calls[t]))
            && p.lock.None? && !p.running && forall c: nat :: !Live(p, c)
  {
    var p := Interleave(FRESH, ls).value;
    forall t | 0 <= t < |p.calls| ensures Over(p.calls[t]) {
      if !Over(p.calls[t]) {
        var lbl := SomeoneMoves(ls, t);
      }
    }
    AllOver(ls);
  }

  lemma AllOver(ls: seq<Label>)
    requires Interleave(FRESH, ls).Some?
    requires var p := Interleave(FRESH, ls).value; forall t | 0 <= t < |p.calls| :: Over(p.calls[t])
    ensures var p := Interleave(FRESH, ls).value;
            p.lock.None? && !p.running && forall c: nat :: !Live(p, c)
  {
    Reachable(ls);
    FlagHolds(ls);
    var p := Interleave(FRESH, ls).value;
    hide Interleave;
    forall c: nat ensures !Live(p, c) {
      assert c < |p.cmds| ==> CmdOk(p, c);
    }
  }

  lemma Go(p: Provider, ls: seq<Label>, q: Provider, lbl: Label, q': Provider) returns (ls': seq<Label>)
    requires Interleave(p, ls) == Some(q) && Next(q, lbl) == Some(q')
    ensures ls' == ls + [lbl] && Interleave(p, ls') == Some(q')
  {
    ls' := ls + [lbl];
    assert ls'[..|ls'| - 1] == ls;
  }

  /** A provider all of whose calls are over can be run again: a further `Run`
      starts a process. */
  lemma RunsAgain(ls: seq<Label>) returns (more: seq<Label>)
    requires Interleave(FRESH, ls).Some?
    requires var p := Interleave(FRESH, ls).value; forall t | 0 <= t < |p.calls| :: Over(p.calls[t])
    ensures Interleave(FRESH, ls + more).Some?
    ensures var p, p' := Interleave(FRESH, ls).value, Interleave(FRESH, ls + more).value;
            Live(p', |p.cmds|) && |p'.calls| == |p.calls| + 1 && p'.calls[|p.calls|] == RFlag(|p.cmds|)
  {
    AllOver(ls);
    var p, t, c := Interleave(FRESH, ls).value, |Interleave(FRESH, ls).value.calls|, |Interleave(FRESH, ls).value.cmds|;
    hide Interleave;
    var p1 := p.(calls := p.calls + [RLock]);
    var ls' := Go(FRESH, ls, p, CallRun, p1);
    var p2 := p1.(calls := p.calls + [RCheck], lock := Some(t));
    AtLast(p1, p.calls, RLock, RCheck);
    ls' := Go(FRESH, ls', p1, Advance(t, true), p2);
    var p3 := p2.(calls := p.calls + [RPrepare(c)], cmd := Some(c), cmds := p.cmds + [NEW_CMD]);
    AtLast(p2, p.calls, RCheck, RPrepare(c));
    ls' := Go(FRESH, ls', p2, Advance(t, true), p3);
    var p4 := p3.(calls := p.calls + [RExec(c)]);
    AtLast(p3, p.calls, RPrepare(c), RExec(c));
    ls' := Go(FRESH, ls', p3, Advance(t, true), p4);
    var p5 := PutCmd(p4, c, NEW_CMD.(proc := Alive)).(calls := p.calls + [RFlag(c)]);
    AtLast(PutCmd(p4, c, NEW_CMD.(proc := Alive)), p.calls, RExec(c), RFlag(c));
    ls' := Go(FRESH, ls', p4, Advance(t, true), p5);
    more := [CallRun, Advance(t, true), Advance(t, true), Advance(t, true), Advance(t, true)];
    assert ls' == ls + more;
  }

  /** The newest call moves. */
  lemma AtLast(p: Provider, calls: seq<Pc>, pc: Pc, pc': Pc)
    requires p.calls == calls + [pc]
    ensures p.calls[|calls|] == pc && At(p, |calls|, pc') == p.(calls := calls + [pc'])
  {
    assert (calls + [pc])[|calls| := pc'] == calls + [pc'];
  }
}
