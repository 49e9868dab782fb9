/** What a control loop does with the commands it receives, over whole
    interleavings: which of them make it check the state, kill a run or return,
    and, for a worker with one loop, the state and the number of sync runs they
    lead to.
    Models worker/job.go, lines 255 to 328.
 */
module Orders {
  import opened JobTypes
  import opened Sums
  import opened Protocol
  import opened Overlap

  /** A command as a loop received it: during a run, or while it had none. */
  datatype Order = Order(c: Ctrl, during: Option<nat>)

  /** What happened to a loop: the commands it received, what it found each time
      it checked whether the job is ready, and how often it received `jobDone`. */
  datatype Log = Log(heard: seq<Order>, checks: seq<bool>, dones: nat)

  const NO_LOG := Log([], [], 0)

  /** What a step adds to the log of loop `i`, read off the state before it. */
  function Noted(g: Log, s: Sys, i: nat, lbl: Label): Log {
    if !lbl.LoopStep? || lbl.i != i || |s.core.loops| <= i then g
    else
      match lbl.loopMove
      case CheckState => g.(checks := g.checks + [s.state == StateReady])
      case RecvCtrl => if s.ctrl == [] then g else g.(heard := g.heard + [OrderTo(s.core.loops[i], s.ctrl[0])])
      case RecvDone => g.(dones := g.dones + 1)
      case _ => g
  }

  function OrderTo(l: Loop, c: Ctrl): Order {
    Order(c, if l.pc.Waiting? && l.runs != [] then Some(|l.runs| - 1) else None)
  }

  function LogOf(s: Sys, ls: seq<Label>, i: nat): Log
    requires Interleave(s, ls).Some?
  {
    if ls == [] then NO_LOG
    else
      var before := ls[..|ls| - 1];
      Noted(LogOf(s, before, i), Interleave(s, before).value, i, ls[|ls| - 1])
  }

  // ---------------------------------------------------------------------
  // What orders mean
  // ---------------------------------------------------------------------

  /** The order ends the loop. */
  predicate Quits(c: Ctrl) {
    c == JobDisable || c == JobHalt || c == JobPing
  }

  /** The order ends the run in progress. */
  predicate Kills(c: Ctrl) {
    c == JobStop || c == JobRestart || Quits(c)
  }

  /** The order makes the loop check the state again: a restart does when the run
      it kills is over, and any order that does not quit when there is no run. */
  function Calls(o: Order): nat {
    if (if o.during.Some? then o.c == JobRestart else !Quits(o.c)) then 1 else 0
  }

  function Forces(o: Order): nat {
    if o.c == JobForceStart then 1 else 0
  }

  function Yes(ready: bool): nat {
    if ready then 1 else 0
  }

  function KillOrders(heard: seq<Order>, j: nat): nat {
    if heard == [] then 0
    else
      var o := heard[|heard| - 1];
      KillOrders(heard[..|heard| - 1], j) + if o.during == Some(j) && Kills(o.c) then 1 else 0
  }

  /** The order in a loop's hands that it has not acted on. */
  predicate Unacted(pc: LoopPc) {
    pc.GotWaiting? || pc.GotIdle?
  }

  predicate HoldsOrder(pc: LoopPc) {
    pc.GotWaiting? || pc.Killing? || pc.Awaiting? || pc.GotIdle?
  }

  predicate InRun(l: Loop) {
    l.pc.Waiting? || l.pc.GotWaiting? || l.pc.Killing? || l.pc.Awaiting? || l.abandoned
  }

  /** A check is due. */
  predicate Owes(pc: LoopPc) {
    pc.Top? || (pc.GotIdle? && !Quits(pc.c)) || ((pc.GotWaiting? || pc.Killing? || pc.Awaiting?) && pc.c == JobRestart)
  }

  predicate Leaves(pc: LoopPc) {
    pc.Returned? || (HoldsOrder(pc) && Quits(pc.c))
  }

  /** `kill` of the current run is still to be closed. */
  predicate WillKill(pc: LoopPc) {
    (pc.GotWaiting? || pc.Killing?) && Kills(pc.c)
  }

  // ---------------------------------------------------------------------
  // Every loop keeps its log
  // ---------------------------------------------------------------------

  /** The order in a loop's hands is the last one it heard; a force start is
      carried on as a start. */
  predicate InHand(l: Loop, heard: seq<Order>) {
    HoldsOrder(l.pc) ==>
      && heard != []
      && var o := heard[|heard| - 1];
      && (o.c == l.pc.c || (o.c == JobForceStart && l.pc.c == JobStart))
      && (if l.pc.GotIdle? then o.during == None else l.runs != [] && o.during == Some(|l.runs| - 1))
      && (l.pc.Killing? || l.pc.Awaiting? ==> Kills(l.pc.c))
      && (l.pc.Awaiting? ==> l.pc.c != JobPing)
  }

  predicate Quitting(l: Loop, heard: seq<Order>) {
    && (forall n | 0 <= n < |heard| - 1 :: !Quits(heard[n].c))
    && (Leaves(l.pc) <==> heard != [] && Quits(heard[|heard| - 1].c))
  }

  predicate KillsKept(l: Loop, heard: seq<Order>) {
    && (forall n | 0 <= n < |heard| && heard[n].during.Some? :: heard[n].during.value < |l.runs|)
    && forall j | 0 <= j < |l.runs| ::
         KillOrders(heard, j) == l.runs[j].kills + if WillKill(l.pc) && j == |l.runs| - 1 then 1 else 0
  }

  ghost predicate Counts(l: Loop, g: Log) {
    && |l.runs| == Sum(g.checks, Yes)
    && |g.checks| + (if Owes(l.pc) then 1 else 0) == (if l.pc == Launched then 0 else 1) + Sum(g.heard, Calls)
    && |l.runs| == g.dones + (if InRun(l) then 1 else 0)
    && (l.abandoned ==> l.pc == Returned)
    && (InRun(l) ==> l.runs != [])
    && l.forced == Sum(g.heard, Forces)
  }

  ghost predicate Kept(l: Loop, g: Log) {
    InHand(l, g.heard) && Quitting(l, g.heard) && KillsKept(l, g.heard) && Counts(l, g)
  }

  lemma {:induction false} NoKillOrders(heard: seq<Order>, j: nat)
    requires forall n | 0 <= n < |heard| && heard[n].during.Some? :: heard[n].during.value < j
    ensures KillOrders(heard, j) == 0
  {
    if heard != [] {
      NoKillOrders(heard[..|heard| - 1], j);
    }
  }

  lemma SpawnKills(l: Loop, heard: seq<Order>)
    requires KillsKept(l, heard) && l.pc == Top
    ensures KillsKept(l.(pc := Waiting, runs := l.runs + [NEW_RUN]), heard)
  {
    NoKillOrders(heard, |l.runs|);
    hide KillOrders;
  }

  lemma CheckKept(l: Loop, g: Log, state: JobState)
    requires Kept(l, g) && l.pc == Top
    ensures Kept(LoopAfter(l, CheckState, state, []).value.0, g.(checks := g.checks + [state == StateReady]))
  {
    SumAppend(g.checks, state == StateReady, Yes);
    SpawnKills(l, g.heard);
    assert KillsKept(l.(pc := Idle), g.heard);
    hide Sum, KillsKept;
  }

  lemma RecvKills(l: Loop, heard: seq<Order>, c: Ctrl)
    requires KillsKept(l, heard) && LoopAfterRecv(l, c).Some? && (l.pc.Waiting? ==> l.runs != [])
    ensures KillsKept(LoopAfterRecv(l, c).value, heard + [OrderTo(l, c)])
  {
    var o := OrderTo(l, c);
    assert (heard + [o])[..|heard|] == heard;
    assert forall j: nat :: KillOrders(heard + [o], j) ==
                            KillOrders(heard, j) + if o.during == Some(j) && Kills(o.c) then 1 else 0;
    hide KillOrders;
  }

  lemma RecvKept(l: Loop, g: Log, c: Ctrl)
    requires Kept(l, g) && LoopAfterRecv(l, c).Some?
    ensures Kept(LoopAfterRecv(l, c).value, g.(heard := g.heard + [OrderTo(l, c)]))
  {
    RecvKills(l, g.heard, c);
    RecvHand(l, g.heard, c);
    RecvCounts(l, g, c);
    hide LoopAfterRecv, KillsKept, InHand, Quitting, Counts;
  }

  lemma RecvHand(l: Loop, heard: seq<Order>, c: Ctrl)
    requires Quitting(l, heard) && LoopAfterRecv(l, c).Some? && (l.pc.Waiting? ==> l.runs != [])
    ensures InHand(LoopAfterRecv(l, c).value, heard + [OrderTo(l, c)])
    ensures Quitting(LoopAfterRecv(l, c).value, heard + [OrderTo(l, c)])
  {
  }

  lemma RecvCounts(l: Loop, g: Log, c: Ctrl)
    requires Counts(l, g) && LoopAfterRecv(l, c).Some?
    ensures Counts(LoopAfterRecv(l, c).value, g.(heard := g.heard + [OrderTo(l, c)]))
  {
    SumAppend(g.heard, OrderTo(l, c), Calls);
    SumAppend(g.heard, OrderTo(l, c), Forces);
    hide Sum;
  }

  lemma DoneKept(l: Loop, g: Log)
    requires Kept(l, g) && LoopAfterDone(l).Some?
    ensures Kept(LoopAfterDone(l).value, g.(dones := g.dones + 1))
  {
    hide Sum, KillOrders;
  }

  lemma ActKept(l: Loop, g: Log, state: JobState)
    requires Kept(l, g) && LoopAfterAct(l, state).Some?
    ensures Kept(LoopAfterAct(l, state).value.0, g)
  {
    ActKills(l, g.heard, state);
    ActHand(l, g.heard, state);
    ActQuitting(l, g.heard, state);
    ActCounts(l, g, state);
    hide LoopAfterAct, KillsKept, InHand, Quitting, Counts;
  }

  lemma ActHand(l: Loop, heard: seq<Order>, state: JobState)
    requires InHand(l, heard) && LoopAfterAct(l, state).Some?
    ensures InHand(LoopAfterAct(l, state).value.0, heard)
  {
  }

  lemma ActQuitting(l: Loop, heard: seq<Order>, state: JobState)
    requires InHand(l, heard) && Quitting(l, heard) && LoopAfterAct(l, state).Some?
    ensures Quitting(LoopAfterAct(l, state).value.0, heard)
  {
    assert Leaves(LoopAfterAct(l, state).value.0.pc) == Leaves(l.pc);
    hide LoopAfterAct;
  }

  lemma ActCounts(l: Loop, g: Log, state: JobState)
    requires Counts(l, g) && InHand(l, g.heard) && LoopAfterAct(l, state).Some?
    ensures Counts(LoopAfterAct(l, state).value.0, g)
  {
    hide Sum;
  }

  lemma ActKills(l: Loop, heard: seq<Order>, state: JobState)
    requires KillsKept(l, heard) && LoopAfterAct(l, state).Some? && InHand(l, heard)
    ensures KillsKept(LoopAfterAct(l, state).value.0, heard)
  {
    var l' := LoopAfterAct(l, state).value.0;
    assert !l.pc.Killing? ==> l'.runs == l.runs && WillKill(l'.pc) == WillKill(l.pc);
    assert l.pc.Killing? ==> l'.runs == PutLast(l, Last(l).(kills := Last(l).kills + 1)).runs && !WillKill(l'.pc);
    hide KillOrders, LoopAfterAct;
  }

  lemma LoopKept(l: Loop, g: Log, s: Sys, i: nat, move: LoopMove)
    requires i < |s.core.loops| && l == s.core.loops[i] && Kept(l, g) && LoopAfter(l, move, s.state, s.ctrl).Some?
    ensures Kept(LoopAfter(l, move, s.state, s.ctrl).value.0, Noted(g, s, i, LoopStep(i, move)))
  {
    match move
    case CountIn => assert KillsKept(l.(pc := Top), g.heard); hide KillsKept, Sum;
    case CheckState => CheckKept(l, g, s.state); hide Kept;
    case RecvDone => DoneKept(l, g); hide Kept;
    case RecvCtrl => RecvKept(l, g, s.ctrl[0]); hide Kept;
    case Act => ActKept(l, g, s.state); hide Kept;
  }

  /** A run moves by itself. */
  lemma RunKept(s: Sys, i: nat, j: nat, move: RunMove, g: Log)
    requires StepRun(s, i, j, move).Some? && i < |s.core.loops| && Kept(s.core.loops[i], g)
    ensures i < |StepRun(s, i, j, move).value.core.loops| && Kept(StepRun(s, i, j, move).value.core.loops[i], g)
  {
    var l, l' := s.core.loops[i], StepRun(s, i, j, move).value.core.loops[i];
    assert l'.runs[j].kills == l.runs[j].kills;
    RunStepFrame(s, i, j, move);
    hide StepRun, Sum, KillOrders;
  }

  /** Loop `i` keeps its log, if it exists, and has none otherwise. */
  ghost predicate LoopKeeps(s: Sys, i: nat, g: Log) {
    if i < |s.core.loops| then Kept(s.core.loops[i], g) else g == NO_LOG
  }

  lemma NewKept()
    ensures Kept(NEW_LOOP, NO_LOG)
  {
  }

  lemma NextKeeps(s: Sys, lbl: Label, i: nat, g: Log)
    requires LoopKeeps(s, i, g) && Next(s, lbl).Some?
    ensures LoopKeeps(Next(s, lbl).value, i, Noted(g, s, i, lbl))
  {
    NewKept();
    hide Kept, StepLoop, StepRun, StepStart, StepSched, HandlerReady, NextHandler, Queued;
    match lbl
    case LoopStep(m, move) =>
      LoopStepFrame(s, m, move);
      if m == i {
        LoopKept(s.core.loops[i], g, s, i, move);
      }
      hide LoopAfter;
    case RunStep(m, j, move) =>
      RunStepFrame(s, m, j, move);
      if m == i {
        RunKept(s, i, j, move, g);
      }
    case StartStep => StartFrame(s);
    case SchedStep(move) => SchedFrame(s, move);
    case FrontStep(move) =>
  }

  lemma {:induction false} InterleaveKeeps(s: Sys, ls: seq<Label>, i: nat)
    requires s.core.loops == [] && Interleave(s, ls).Some?
    ensures LoopKeeps(Interleave(s, ls).value, i, LogOf(s, ls, i))
  {
    if ls != [] {
      var before := ls[..|ls| - 1];
      InterleaveKeeps(s, before, i);
      hide Next, LoopKeeps, Noted;
      NextKeeps(Interleave(s, before).value, ls[|ls| - 1], i, LogOf(s, before, i));
    }
  }

  /** What the log of a loop shows: one run for each check that found the job
      ready; when the loop is ready for its next command, one check at its
      beginning and one for each order that calls for it, and no order to quit; a
      run in progress exactly if one of the runs is not done; a loop that returned
      was told to; and `kill` of each run closed for exactly the orders received
      during it that kill. */
  predicate Shown(l: Loop, g: Log) {
    && |l.runs| == Sum(g.checks, Yes)
    && (l.pc.Waiting? || l.pc.Idle? ==>
          && |g.checks| == 1 + Sum(g.heard, Calls)
          && |l.runs| == g.dones + (if l.pc.Waiting? then 1 else 0)
          && forall n | 0 <= n < |g.heard| :: !Quits(g.heard[n].c))
    && (l.pc.Returned? ==> g.heard != [] && Quits(g.heard[|g.heard| - 1].c))
    && (l.pc.Waiting? || l.pc.Idle? || l.pc.Returned? ==>
          forall j | 0 <= j < |l.runs| :: l.runs[j].kills == KillOrders(g.heard, j))
  }

  lemma KeptShows(l: Loop, g: Log)
    requires Kept(l, g)
    ensures Shown(l, g)
  {
    hide Sum, KillOrders;
  }

  /** Every loop in every interleaving. */
  lemma EveryOrder(cap: nat, retries: int, status: SyncStatus, stime: int, ls: seq<Label>, i: nat)
    requires Interleave(Boot(cap, retries, status, stime), ls).Some?
    requires i < |Interleave(Boot(cap, retries, status, stime), ls).value.core.loops|
    ensures Shown(Interleave(Boot(cap, retries, status, stime), ls).value.core.loops[i],
                  LogOf(Boot(cap, retries, status, stime), ls, i))
  {
    var s0 := Boot(cap, retries, status, stime);
    InterleaveKeeps(s0, ls, i);
    KeptShows(Interleave(s0, ls).value.core.loops[i], LogOf(s0, ls, i));
    hide Interleave, Kept, Shown, LogOf;
  }

  // ---------------------------------------------------------------------
  // What a run finds
  // ---------------------------------------------------------------------

  lemma {:induction false} SomeKill(heard: seq<Order>, j: nat)
    requires 0 < KillOrders(heard, j)
    ensures exists n :: 0 <= n < |heard| && heard[n].during == Some(j) && Kills(heard[n].c)
  {
    var m := |heard| - 1;
    if !(heard[m].during == Some(j) && Kills(heard[m].c)) {
      SomeKill(heard[..m], j);
      var n :| 0 <= n < m && heard[..m][n].during == Some(j) && Kills(heard[..m][n].c);
      assert heard[n].during == Some(j) && Kills(heard[n].c);
    }
  }

  lemma {:induction false} SomeForce(heard: seq<Order>)
    requires 0 < Sum(heard, Forces)
    ensures exists n :: 0 <= n < |heard| && heard[n].c == JobForceStart
  {
    var m := |heard| - 1;
    if heard[m].c != JobForceStart {
      SomeForce(heard[..m]);
      var n :| 0 <= n < m && heard[..m][n].c == JobForceStart;
      assert heard[n].c == JobForceStart;
    }
  }

  /** What a step of a run says about the orders heard before it: it is killed only
      by one received during it, goes ahead without a slot only after a force
      start, needs a free slot otherwise, and reads the state as it is. */
  ghost predicate Justified(s: Sys, lbl: Label, heard: seq<Order>) {
    lbl.RunStep? && lbl.i < |s.core.loops| ==>
      && (lbl.runMove.TakeKill? || (lbl.runMove.Wrap? && lbl.runMove.choice.Kill?) ==>
            exists n :: 0 <= n < |heard| && heard[n].during == Some(lbl.j) && Kills(heard[n].c))
      && (lbl.runMove.Bypass? ==> exists n :: 0 <= n < |heard| && heard[n].c == JobForceStart)
      && (lbl.runMove.Acquire? ==> s.core.sem < s.core.cap)
      && (lbl.runMove.Wrap? && lbl.runMove.choice.ReadState? ==> lbl.runMove.choice.ready == (s.state == StateReady))
  }

  lemma RunJustified(s: Sys, i: nat, j: nat, move: RunMove, g: Log)
    requires i < |s.core.loops| && LoopOk(s.core.retries, s.core.loops[i]) && Kept(s.core.loops[i], g)
    requires StepRun(s, i, j, move).Some?
    ensures Justified(s, RunStep(i, j, move), g.heard)
  {
    var l := s.core.loops[i];
    assert RunOk(s.core.retries, l.runs[j]);
    if move.TakeKill? || (move.Wrap? && move.choice.Kill?) {
      assert 0 < l.runs[j].kills;
      hide KillOrders, RunOk, StepRun, LoopOk;
      SomeKill(g.heard, j);
    } else if move.Bypass? {
      assert l.bypass && 0 < l.forced;
      hide RunOk, StepRun, Sum;
      SomeForce(g.heard);
    }
  }

  /** Every step of every run in every interleaving is justified so. */
  lemma EveryArm(cap: nat, retries: int, status: SyncStatus, stime: int, ls: seq<Label>, lbl: Label)
    requires Interleave(Boot(cap, retries, status, stime), ls + [lbl]).Some? && lbl.RunStep?
    ensures Interleave(Boot(cap, retries, status, stime), ls).Some?
    ensures Justified(Interleave(Boot(cap, retries, status, stime), ls).value, lbl,
                      LogOf(Boot(cap, retries, status, stime), ls, lbl.i).heard)
  {
    var s0 := Boot(cap, retries, status, stime);
    assert (ls + [lbl])[..|ls|] == ls;
    var s := Interleave(s0, ls).value;
    StepInRange(s, lbl);
    BootInv(cap, retries, status, stime);
    InterleaveInv(s0, ls);
    InterleaveKeeps(s0, ls, lbl.i);
    assert LoopOk(s.core.retries, s.core.loops[lbl.i]);
    RunJustified(s, lbl.i, lbl.j, lbl.runMove, LogOf(s0, ls, lbl.i));
    hide Interleave, Kept, LogOf, Inv, LoopOk, Justified;
  }

  /** A log only grows. */
  lemma {:induction false} LogGrows(s: Sys, ls: seq<Label>, more: seq<Label>, i: nat)
    requires Interleave(s, ls + more).Some?
    ensures Interleave(s, ls).Some? && LogOf(s, ls, i).checks <= LogOf(s, ls + more, i).checks
  {
    if more == [] {
      assert ls + more == ls;
    } else {
      assert (ls + more)[..|ls + more| - 1] == ls + more[..|more| - 1];
      LogGrows(s, ls, more[..|more| - 1], i);
      hide Next;
    }
  }

  /** A loop obeys an order received during a run and, hearing nothing else, gets
      ready for the next command: the run it had is killed; after a restart it has
      checked the state once, and spawned one run exactly if that check found the
      job ready; after a stop it has checked and spawned nothing. */
  predicate Turned(l: Loop, g: Log, l': Loop, g': Log) {
    (l.pc.GotWaiting? || l.pc.Killing? || l.pc.Awaiting?) && (l'.pc.Waiting? || l'.pc.Idle?) && g'.heard == g.heard ==>
    && 0 < |l.runs| <= |l'.runs| && |g.checks| <= |g'.checks|
    && var found := g'.checks[|g.checks|..];
    && (Kills(l.pc.c) ==> l'.runs[|l.runs| - 1].kills == 1)
    && (l.pc.c == JobRestart ==> |found| == 1 && |l'.runs| == |l.runs| + (if found[0] then 1 else 0))
    && (l.pc.c == JobStop ==> found == [] && |l'.runs| == |l.runs| && l'.pc.Idle?)
  }

  lemma KeptTurns(l: Loop, g: Log, l': Loop, g': Log)
    requires Kept(l, g) && Kept(l', g') && g.checks <= g'.checks
    requires BeforeKill(l.pc) || l.pc.Awaiting? ==> l.runs != [] && Last(l).kills == if l.pc.Awaiting? then 1 else 0
    requires l'.pc.Waiting? ==> l'.runs != [] && Last(l').kills == 0
    ensures Turned(l, g, l', g')
  {
    if (l.pc.GotWaiting? || l.pc.Killing? || l.pc.Awaiting?) && (l'.pc.Waiting? || l'.pc.Idle?)
       && g'.heard == g.heard {
      MoreChecks(g.checks, g'.checks);
      TurnKills(l, l', g.heard);
      hide KillsKept, InHand, Quitting, Sum;
    }
  }

  lemma MoreChecks(a: seq<bool>, b: seq<bool>)
    requires a <= b
    ensures |b| == |a| ==> Sum(b, Yes) == Sum(a, Yes)
    ensures |b| == |a| + 1 ==> Sum(b, Yes) == Sum(a, Yes) + Yes(b[|a|])
  {
    if |b| == |a| {
      assert a == b;
    } else if |b| == |a| + 1 {
      assert b == a + [b[|a|]];
      SumAppend(a, b[|a|], Yes);
    }
  }

  lemma TurnKills(l: Loop, l': Loop, heard: seq<Order>)
    requires InHand(l, heard) && KillsKept(l, heard) && KillsKept(l', heard) && (l'.pc.Waiting? || l'.pc.Idle?)
    requires l.pc.GotWaiting? || l.pc.Killing? || l.pc.Awaiting?
    requires l.runs != [] && Last(l).kills == if l.pc.Awaiting? then 1 else 0
    ensures |l.runs| <= |l'.runs| && (Kills(l.pc.c) ==> l'.runs[|l.runs| - 1].kills == 1)
  {
    hide KillOrders;
    assert KillOrders(heard, |l.runs| - 1) == Last(l).kills + if WillKill(l.pc) then 1 else 0;
  }

  lemma KilledInTurn(cap: nat, retries: int, status: SyncStatus, stime: int,
                     ls: seq<Label>, s: Sys, more: seq<Label>, t: Sys, i: nat)
    requires Interleave(Boot(cap, retries, status, stime), ls) == Some(s)
    requires Interleave(Boot(cap, retries, status, stime), ls + more) == Some(t)
    requires i < |s.core.loops| && i < |t.core.loops|
    ensures Turned(s.core.loops[i], LogOf(Boot(cap, retries, status, stime), ls, i),
                   t.core.loops[i], LogOf(Boot(cap, retries, status, stime), ls + more, i))
  {
    var s0 := Boot(cap, retries, status, stime);
    LogGrows(s0, ls, more, i);
    InterleaveKeeps(s0, ls, i);
    InterleaveKeeps(s0, ls + more, i);
    BootInv(cap, retries, status, stime);
    InterleaveInv(s0, ls);
    InterleaveInv(s0, ls + more);
    hide Interleave, LogOf, Kept, Turned, Boot;
    assert LoopOk(s.core.retries, s.core.loops[i]) && LoopOk(t.core.retries, t.core.loops[i]);
    KeptTurns(s.core.loops[i], LogOf(s0, ls, i), t.core.loops[i], LogOf(s0, ls + more, i));
  }

  // ---------------------------------------------------------------------
  // One loop: the state and the runs are the ones ordered
  // ---------------------------------------------------------------------

  /** The state the orders leave: the last one that sets it does. A halt sets it
      only during a run, and a ping never does. */
  function Ordered(init: JobState, heard: seq<Order>): JobState {
    if heard == [] then init
    else
      var o := heard[|heard| - 1];
      match o.c
      case JobStop => StatePaused
      case JobDisable => StateDisabled
      case JobHalt => if o.during.Some? then StateHalting else Ordered(init, heard[..|heard| - 1])
      case JobPing => Ordered(init, heard[..|heard| - 1])
      case _ => StateReady
  }

  /** The order is one for a new run: any start without one, a restart during one. */
  function Wants(o: Order): nat {
    if (if o.during.Some? then o.c == JobRestart else StartsRun(o.c)) then 1 else 0
  }

  /** The run ordered last is still to be spawned. */
  predicate WillSpawn(pc: LoopPc, state: JobState) {
    if pc.Top? then state == StateReady else Owes(pc) && pc.c != JobStop
  }

  function Acted(l: Loop, heard: seq<Order>): seq<Order> {
    if Unacted(l.pc) && heard != [] then heard[..|heard| - 1] else heard
  }

  ghost predicate Obeyed(l: Loop, g: Log, init: JobState, state: JobState) {
    && init != StateReady && InHand(l, g.heard) && (l.pc.Launched? ==> g.heard == [])
    && state == Ordered(init, Acted(l, g.heard))
    && Sum(g.checks, Yes) + (if WillSpawn(l.pc, state) then 1 else 0) == Sum(g.heard, Wants)
  }

  lemma CheckObeyed(l: Loop, g: Log, init: JobState, state: JobState)
    requires Obeyed(l, g, init, state) && l.pc == Top
    ensures var (l', state') := LoopAfter(l, CheckState, state, []).value;
            Obeyed(l', g.(checks := g.checks + [state == StateReady]), init, state')
  {
    SumAppend(g.checks, state == StateReady, Yes);
    hide Sum;
  }

  lemma RecvObeyed(l: Loop, g: Log, init: JobState, state: JobState, c: Ctrl)
    requires Obeyed(l, g, init, state) && LoopAfterRecv(l, c).Some? && (l.pc.Waiting? ==> l.runs != [])
    ensures Obeyed(LoopAfterRecv(l, c).value, g.(heard := g.heard + [OrderTo(l, c)]), init, state)
  {
    var o := OrderTo(l, c);
    SumAppend(g.heard, o, Wants);
    assert (g.heard + [o])[..|g.heard|] == g.heard;
    hide Sum, Ordered;
  }

  lemma ActState(l: Loop, heard: seq<Order>, init: JobState, state: JobState)
    requires InHand(l, heard) && state == Ordered(init, Acted(l, heard)) && LoopAfterAct(l, state).Some?
    ensures var (l', state') := LoopAfterAct(l, state).value; state' == Ordered(init, Acted(l', heard))
  {
    HandOrder(l, heard);
    hide InHand;
  }

  lemma ActSpawn(l: Loop, state: JobState)
    requires LoopAfterAct(l, state).Some?
    ensures var (l', state') := LoopAfterAct(l, state).value;
            WillSpawn(l'.pc, state') == WillSpawn(l.pc, state) && !l'.pc.Launched?
  {
  }

  lemma ActObeyed(l: Loop, g: Log, init: JobState, state: JobState)
    requires Obeyed(l, g, init, state) && LoopAfterAct(l, state).Some?
    ensures var (l', state') := LoopAfterAct(l, state).value; Obeyed(l', g, init, state')
  {
    ActHand(l, g.heard, state);
    ActState(l, g.heard, init, state);
    ActSpawn(l, state);
    hide Sum, InHand, LoopAfterAct, WillSpawn, Ordered, Acted;
  }

  /** What the order in hand is. */
  lemma HandOrder(l: Loop, heard: seq<Order>)
    requires InHand(l, heard) && HoldsOrder(l.pc)
    ensures heard != [] && var o := heard[|heard| - 1];
            && (o.c == l.pc.c || (o.c == JobForceStart && l.pc.c == JobStart))
            && o.during.Some? == !l.pc.GotIdle?
  {
  }

  lemma LoopObeyed(s: Sys, g: Log, init: JobState, move: LoopMove)
    requires s.core.loops != [] && Obeyed(s.core.loops[0], g, init, s.state) && Counts(s.core.loops[0], g)
    requires LoopAfter(s.core.loops[0], move, s.state, s.ctrl).Some?
    ensures var (l', state') := LoopAfter(s.core.loops[0], move, s.state, s.ctrl).value;
            Obeyed(l', Noted(g, s, 0, LoopStep(0, move)), init, state')
  {
    var l := s.core.loops[0];
    match move
    case CountIn =>
    case CheckState => CheckObeyed(l, g, init, s.state); hide Obeyed;
    case RecvDone => hide Sum;
    case RecvCtrl => RecvObeyed(l, g, init, s.state, s.ctrl[0]); hide Obeyed;
    case Act => ActObeyed(l, g, init, s.state); hide Obeyed;
  }

  /** The only loop, if there is one, has obeyed; before, nothing was ordered. */
  ghost predicate SoloKeeps(s: Sys, g: Log, status: SyncStatus) {
    if s.core.loops == [] then
      && g == NO_LOG
      && (if Unlaunched(s.sched) then s.sched.status == status else s.state == InitialState(status))
    else !Unlaunched(s.sched) && Obeyed(s.core.loops[0], g, InitialState(status), s.state)
  }

  lemma NewObeyed(init: JobState)
    requires init != StateReady
    ensures Obeyed(NEW_LOOP, NO_LOG, init, init)
  {
  }

  lemma LoopSolo(s: Sys, i: nat, move: LoopMove, g: Log, status: SyncStatus)
    requires |s.core.loops| <= 1 && LoopKeeps(s, 0, g) && SoloKeeps(s, g, status) && StepLoop(s, i, move).Some?
    ensures SoloKeeps(StepLoop(s, i, move).value, Noted(g, s, 0, LoopStep(i, move)), status)
  {
    LoopStepFrame(s, i, move);
    hide StepLoop, Obeyed;
    LoopObeyed(s, g, InitialState(status), move);
    hide LoopAfter, Noted;
  }

  lemma StartSolo(s: Sys, g: Log, status: SyncStatus)
    requires StartupOk(s) && SoloKeeps(s, g, status) && StepStart(s).Some?
    ensures SoloKeeps(StepStart(s).value, g, status)
  {
    NewObeyed(InitialState(status));
    hide Obeyed;
    StartFrame(s);
    hide StepStart;
  }

  lemma FrontSolo(s: Sys, move: FrontMove, g: Log, status: SyncStatus)
    requires StartupOk(s) && SoloKeeps(s, g, status) && StepFront(s, move).Some?
    requires |StepFront(s, move).value.core.loops| <= 1
    ensures SoloKeeps(StepFront(s, move).value, g, status)
  {
    NewObeyed(InitialState(status));
    hide Obeyed, HandlerReady, NextHandler, Queued;
  }

  lemma NextSolo(s: Sys, lbl: Label, g: Log, status: SyncStatus)
    requires Inv(s) && LoopKeeps(s, 0, g) && SoloKeeps(s, g, status)
    requires Next(s, lbl).Some? && |Next(s, lbl).value.core.loops| <= 1
    ensures SoloKeeps(Next(s, lbl).value, Noted(g, s, 0, lbl), status)
  {
    StepInRange(s, lbl);
    assert StartupOk(s);
    hide Inv, Obeyed, LoopKeeps, StepLoop, StepRun, StepStart, StepSched, StepFront, StartupOk;
    match lbl
    case LoopStep(m, move) => LoopSolo(s, m, move, g, status); hide SoloKeeps;
    case RunStep(m, j, move) =>
      RunStepFrame(s, m, j, move);
      RunObeyed(s.core.loops[0], Next(s, lbl).value.core.loops[0], g, InitialState(status), s.state);
    case StartStep => StartSolo(s, g, status); hide SoloKeeps;
    case SchedStep(move) => SchedFrame(s, move);
    case FrontStep(move) => FrontSolo(s, move, g, status); hide SoloKeeps;
  }

  lemma RunObeyed(l: Loop, l': Loop, g: Log, init: JobState, state: JobState)
    requires Obeyed(l, g, init, state) && l'.pc == l.pc && |l'.runs| == |l.runs|
    ensures Obeyed(l', g, init, state)
  {
    hide Sum, Ordered;
  }

  lemma {:induction false} InterleaveSolo(s: Sys, ls: seq<Label>, status: SyncStatus)
    requires Inv(s) && s.core.loops == [] && SoloKeeps(s, NO_LOG, status) && Interleave(s, ls).Some?
    requires |Interleave(s, ls).value.core.loops| <= 1
    ensures SoloKeeps(Interleave(s, ls).value, LogOf(s, ls, 0), status)
  {
    if ls != [] {
      var before, lbl := ls[..|ls| - 1], ls[|ls| - 1];
      var t := Interleave(s, before).value;
      StepInRange(t, lbl);
      InterleaveSolo(s, before, status);
      InterleaveInv(s, before);
      InterleaveKeeps(s, before, 0);
      hide Inv, Next, LoopKeeps, SoloKeeps, Noted;
      NextSolo(t, lbl, LogOf(s, before, 0), status);
    }
  }

  /** A worker whose runs cannot overlap, in every interleaving: when its control
      loop is ready for the next command, the state is the one ordered last, or
      the one start-up stored, and the loop has spawned exactly one run for each
      start or restart it received while it had no run, and one for each restart
      it received during one. */
  lemma EveryRunOrdered(cap: nat, retries: int, status: SyncStatus, stime: int, ls: seq<Label>)
    requires Interleave(Boot(cap, retries, status, stime), ls).Some?
    requires Solo(status, ls, Interleave(Boot(cap, retries, status, stime), ls).value.seen.starts)
    ensures var s := Interleave(Boot(cap, retries, status, stime), ls).value;
            var g := LogOf(Boot(cap, retries, status, stime), ls, 0);
            var init := match status { case Paused => StatePaused case Disabled => StateDisabled case _ => StateNone };
            |s.core.loops| <= 1 &&
            (s.core.loops != [] ==>
               var l := s.core.loops[0];
               && (!Unacted(l.pc) ==> s.state == Ordered(init, g.heard))
               && (l.pc.Waiting? || l.pc.Idle? || l.pc.Returned? ==> |l.runs| == Sum(g.heard, Wants)))
  {
    var s0 := Boot(cap, retries, status, stime);
    SoloLoop(cap, retries, status, stime, ls);
    BootInv(cap, retries, status, stime);
    InterleaveSolo(s0, ls, status);
    InterleaveKeeps(s0, ls, 0);
    hide Interleave, Sum, LogOf, Ordered, Inv;
  }
}
