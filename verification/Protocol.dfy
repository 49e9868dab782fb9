/** The worker's job-control protocol as a labelled transition system: any
    number of control loops (`mirrorJob.Run`), every `runJob` goroutine they
    ever spawn, `runSchedule`, the HTTP command handler and `Halt`. Each channel
    operation, select arm, atomic load or store and mutex-protected call is one
    step, and the environment chooses which goroutine moves.
    It begins before `runSchedule` takes the worker's lock, when the HTTP server
    may already have accepted commands.
    Models worker/job.go, lines 95 to 328, and worker/worker.go.
 */
module Protocol {
  import opened JobTypes
  import opened Wrapper
  import opened Sums
  import S = Schedule

  // ---------------------------------------------------------------------
  // State
  // ---------------------------------------------------------------------

  /** Where a `runJob` goroutine stands. */
  datatype Phase = Selecting | KillSelected | Wrapping(pc: Pc) | Releasing | Over

  /** One `runJob` goroutine with its own `kill` and `jobDone` channels: how
      often `kill` was closed, how often `jobDone` was closed or sent on, and
      the messages the goroutine reported. */
  datatype Run = Run(phase: Phase, slot: bool, bypassed: bool,
                     kills: nat, closes: nat, sends: nat, trace: seq<JobMessage>)

  const NEW_RUN := Run(Selecting, false, false, 0, 0, 0, [])

  /** Where a control loop stands. */
  datatype LoopPc =
    | Launched               // the goroutine exists, jobsDone.Add is next
    | Top                    // about to read the state
    | Waiting                // select on jobDone and the control channel
    | GotWaiting(c: Ctrl)    // a command arrived while a run exists
    | Killing(c: Ctrl)       // about to close kill
    | Awaiting(c: Ctrl)      // kill closed, receiving jobDone
    | Idle                   // receiving from the control channel
    | GotIdle(c: Ctrl)       // a command arrived while idle
    | Returned

  /** A control loop, the goroutines it spawned, oldest first, its bypass
      channel, and how many force-start commands it received. */
  datatype Loop = Loop(pc: LoopPc, runs: seq<Run>, bypass: bool, forced: nat, abandoned: bool)

  const NEW_LOOP := Loop(Launched, [], false, 0, false)

  /** Where `runSchedule` stands. Start-up holds the worker's lock from `Fetched`
      to `Unlocking`; the status and the time are what it fetches. */
  datatype SchedPc =
    | AwaitLock(status: SyncStatus, stime: int)
    | Fetched(status: SyncStatus, stime: int)     // storing the state is next
    | Launching(status: SyncStatus, stime: int)   // the control loop is next
    | Scheduling(stime: int)                      // AddJob is next
    | Unlocking
    | SelectMsg
    | GotMsg(m: JobMessage)      // first load of the state is next
    | NotReady(m: JobMessage)    // second load of the state is next
    | Accepted(m: JobMessage)    // status reported, AddJob is next if asked for
    | Popped                     // about to send jobStart
    | Flushing
    | Down

  datatype HttpCmd = CmdStart(force: bool) | CmdStop | CmdRestart | CmdPing | CmdInvalid

  /** Who holds the worker's lock, and where they stand. */
  datatype HandlerPc =
    | Free
    | Flush(cmd: HttpCmd)
    | Check(cmd: HttpCmd)
    | Send(c: Ctrl)
    | HaltCheck
    | HaltSend
    | HaltWait

  /** The control loops with the semaphore and the wait group they share. */
  datatype Core = Core(cap: nat, retries: int, loops: seq<Loop>, sem: nat, jobsDone: int)

  /** What has been asked of the worker: the start and restart commands accepted,
      those of them accepted before start-up took the lock, the stop commands,
      the calls of `Halt`, and the actions injected. */
  datatype Seen = Seen(starts: nat, early: nat, stops: nat, halts: nat, injects: nat)

  /** The whole worker. `closing` is a `Halt` that has released the lock and not
      closed `exit` yet. */
  datatype Sys = Sys(
    core: Core, state: JobState, ctrl: seq<Ctrl>, mgr: seq<JobMessage>,
    slot: S.Slot, stuck: bool, sched: SchedPc, handler: HandlerPc,
    exit: bool, closing: bool, seen: Seen, crashed: bool)

  const CTRL_CAP := 1
  const MGR_CAP := 32

  /** A new worker: commands can arrive, and `runSchedule` is about to take the
      lock and to fetch the given status and first time to sync. */
  function Boot(cap: nat, retries: int, status: SyncStatus, stime: int): Sys {
    Sys(Core(cap, retries, [], 0, 0), StateNone, [], [], S.EMPTY, false, AwaitLock(status, stime), Free,
        false, false, Seen(0, 0, 0, 0, 0), false)
  }

  // ---------------------------------------------------------------------
  // Steps
  // ---------------------------------------------------------------------

  datatype LoopMove = CountIn | CheckState | RecvDone | RecvCtrl | Act

  datatype RunMove = Acquire | Bypass | TakeKill | Wrap(choice: Choice) | CloseDone | Release

  datatype SchedMove = RecvMsg | LoadState | AddJob(t: int) | Tick(now: int) | SendStart | Leave | Drain

  /** The worker's front: the HTTP handler, `Halt`, and `Inject`, which stands
      for the two control actions the protocol knows and worker.go never sends. */
  datatype FrontMove = Accept(cmd: HttpCmd) | AcceptHalt | Advance | CloseExit | Inject(c: Ctrl)

  datatype Label =
    | LoopStep(i: nat, loopMove: LoopMove)
    | RunStep(i: nat, j: nat, runMove: RunMove)
    | StartStep
    | SchedStep(schedMove: SchedMove)
    | FrontStep(frontMove: FrontMove)

  function Put(k: Core, i: nat, l: Loop): Core
    requires i < |k.loops|
  {
    k.(loops := k.loops[i := l])
  }

  function PutRun(l: Loop, j: nat, r: Run): Loop
    requires j < |l.runs|
  {
    l.(runs := l.runs[j := r])
  }

  function Last(l: Loop): Run
    requires l.runs != []
  {
    l.runs[|l.runs| - 1]
  }

  function PutLast(l: Loop, r: Run): Loop
    requires l.runs != []
  {
    PutRun(l, |l.runs| - 1, r)
  }

  /** Receiving from a run's `jobDone`: it is closed, or the run offers its one
      value at this very moment. */
  function DoneRun(r: Run): Option<Run> {
    if 0 < r.closes then Some(r)
    else if r.phase == KillSelected then Some(r.(phase := Over, sends := r.sends + 1))
    else None
  }

  function LoopAfterDone(l: Loop): Option<Loop> {
    if l.runs == [] || !(l.pc.Waiting? || l.pc.Awaiting?) then None
    else
      match DoneRun(Last(l))
      case None => None
      case Some(r) =>
        var pc := match l.pc {
          case Awaiting(JobRestart) => Top
          case Awaiting(JobDisable) => Returned
          case Awaiting(JobHalt) => Returned
          case _ => Idle
        };
        Some(PutLast(l, r).(pc := pc))
  }

  function LoopAfterRecv(l: Loop, c: Ctrl): Option<Loop> {
    if !(l.pc.Waiting? || l.pc.Idle?) then None
    else Some(l.(pc := if l.pc.Waiting? then GotWaiting(c) else GotIdle(c),
                 forced := l.forced + if c == JobForceStart then 1 else 0))
  }

  /** What a loop does with the command in its hands, and the state it leaves. */
  function LoopAfterAct(l: Loop, state: JobState): Option<(Loop, JobState)> {
    match l.pc
    case GotWaiting(JobStop) => Some((l.(pc := Killing(JobStop)), StatePaused))
    case GotWaiting(JobDisable) => Some((l.(pc := Killing(JobDisable)), StateDisabled))
    case GotWaiting(JobRestart) => Some((l.(pc := Killing(JobRestart)), StateReady))
    case GotWaiting(JobHalt) => Some((l.(pc := Killing(JobHalt)), StateHalting))
    case GotWaiting(JobForceStart) => Some((l.(pc := GotWaiting(JobStart), bypass := true), state))
    case GotWaiting(JobStart) => Some((l.(pc := Waiting), StateReady))
    case GotWaiting(JobPing) => Some((l.(pc := Killing(JobPing)), state))
    case Killing(c) =>
      if l.runs == [] then None
      else
        var l' := PutLast(l, Last(l).(kills := Last(l).kills + 1));
        // The default arm returns without receiving jobDone.
        if c == JobPing then Some((l'.(pc := Returned, abandoned := true), state))
        else Some((l'.(pc := Awaiting(c)), state))
    case GotIdle(JobStop) => Some((l.(pc := Top), StatePaused))
    case GotIdle(JobDisable) => Some((l.(pc := Returned), StateDisabled))
    case GotIdle(JobForceStart) => Some((l.(pc := GotIdle(JobStart), bypass := true), state))
    case GotIdle(JobRestart) => Some((l.(pc := Top), StateReady))
    case GotIdle(JobStart) => Some((l.(pc := Top), StateReady))
    case GotIdle(_) => Some((l.(pc := Returned), state))
    case _ => None
  }

  /** What a loop makes of a step, given the state and the control channel, and
      the state it leaves. */
  function LoopAfter(l: Loop, move: LoopMove, state: JobState, ctrl: seq<Ctrl>): Option<(Loop, JobState)> {
    match move
    case CountIn => if l.pc == Launched then Some((l.(pc := Top), state)) else None
    case CheckState =>
      if l.pc != Top then None
      else if state == StateReady then Some((l.(pc := Waiting, runs := l.runs + [NEW_RUN]), state))
      else Some((l.(pc := Idle), state))
    case RecvDone => (match LoopAfterDone(l) case None => None case Some(l') => Some((l', state)))
    case RecvCtrl =>
      if ctrl == [] then None
      else (match LoopAfterRecv(l, ctrl[0]) case None => None case Some(l') => Some((l', state)))
    case Act => LoopAfterAct(l, state)
  }

  /** A loop's step: it counts itself in first, and the deferred `jobsDone.Done`
      runs when it returns. */
  function StepLoop(s: Sys, i: nat, move: LoopMove): Option<Sys> {
    var k := s.core;
    if |k.loops| <= i then None
    else
      match LoopAfter(k.loops[i], move, s.state, s.ctrl)
      case None => None
      case Some((l, state)) =>
        var counted := if move.CountIn? then 1 else if l.pc == Returned then -1 else 0;
        Some(s.(core := Put(k, i, l).(jobsDone := k.jobsDone + counted), state := state,
                ctrl := if move.RecvCtrl? then s.ctrl[1..] else s.ctrl))
  }

  /** The steps of a `runJob` goroutine other than those inside the wrapper.
      The deferred close runs before the slot is given back. */
  function RunAfter(r: Run, move: RunMove, bypass: bool): Option<Run> {
    match move
    case Acquire =>
      if r.phase == Selecting then Some(r.(phase := Wrapping(START), slot := true)) else None
    case Bypass =>
      if r.phase == Selecting && bypass then Some(r.(phase := Wrapping(START), bypassed := true)) else None
    case TakeKill =>
      if r.phase == Selecting && 0 < r.kills then Some(r.(phase := KillSelected)) else None
    case CloseDone =>
      if r.phase == Wrapping(Done) then
        Some(r.(phase := if r.bypassed then Over else Releasing, closes := r.closes + 1))
      else None
    case Release =>
      if r.phase == Releasing then Some(r.(phase := Over, slot := false)) else None
    case Wrap(_) => None
  }

  /** A step inside `runJobWrapper`: a message needs room in the manager
      channel, a kill a closed channel, and the state is the job's own. */
  function WrapAfter(s: Sys, r: Run, choice: Choice): Option<Run> {
    if !r.phase.Wrapping? then None
    else if r.phase.pc.Sending? && MGR_CAP <= |s.mgr| then None
    else if choice.Kill? && r.kills == 0 then None
    else if choice.ReadState? && choice.ready != (s.state == StateReady) then None
    else
      match Step(s.core.retries, r.phase.pc, choice)
      case None => None
      case Some(next) => Some(r.(phase := Wrapping(next), trace := r.trace + Emitted(r.phase.pc)))
  }

  /** A run needs a free slot to acquire one. */
  predicate RunReady(k: Core, move: RunMove) {
    (move.Acquire? ==> k.sem < k.cap) && (move.Release? ==> 0 < k.sem)
  }

  function StepRun(s: Sys, i: nat, j: nat, move: RunMove): Option<Sys> {
    var k := s.core;
    if |k.loops| <= i || |k.loops[i].runs| <= j || !RunReady(k, move) then None
    else
      var l := k.loops[i];
      var r := l.runs[j];
      match if move.Wrap? then WrapAfter(s, r, move.choice) else RunAfter(r, move, l.bypass)
      case None => None
      case Some(r') =>
        var l' := PutRun(l, j, r').(bypass := l.bypass && !move.Bypass?);
        var sem := if move.Acquire? then k.sem + 1 else if move.Release? then k.sem - 1 else k.sem;
        Some(s.(core := Put(k, i, l').(sem := sem),
                mgr := if move.Wrap? then s.mgr + Emitted(r.phase.pc) else s.mgr,
                crashed := s.crashed || r'.phase == Wrapping(Crashed)))
  }

  /** The state start-up stores for a status. */
  function InitialState(status: SyncStatus): JobState {
    if status == Disabled then StateDisabled else if status == Paused then StatePaused else StateNone
  }

  /** The start-up block of `runSchedule`. */
  function StepStart(s: Sys): Option<Sys> {
    match s.sched
    case AwaitLock(status, stime) =>
      if s.handler != Free then None else Some(s.(sched := Fetched(status, stime)))
    case Fetched(status, stime) =>
      Some(s.(state := InitialState(status),
              sched := if status == Disabled then Unlocking else Launching(status, stime)))
    case Launching(status, stime) =>
      Some(s.(core := Launch(s.core),
              sched := if status == Paused then Unlocking else Scheduling(stime)))
    case Scheduling(stime) =>
      if s.stuck then None
      else
        (match S.Add(s.slot, stime)
         case None => Some(s.(stuck := true))
         case Some(q) => Some(s.(slot := q, sched := Unlocking)))
    case Unlocking => Some(s.(sched := SelectMsg))
    case _ => None
  }

  /** `runSchedule` holds the worker's lock. */
  predicate SchedLocks(pc: SchedPc) {
    pc.Fetched? || pc.Launching? || pc.Scheduling? || pc.Unlocking? || pc.Flushing?
  }

  /** Start-up has not come to the control loop yet. */
  predicate Unlaunched(pc: SchedPc) {
    pc.AwaitLock? || pc.Fetched? || pc.Launching?
  }

  function StepSched(s: Sys, move: SchedMove): Option<Sys> {
    match (move, s.sched)
    case (RecvMsg, SelectMsg) =>
      if s.mgr == [] then None else Some(s.(sched := GotMsg(s.mgr[0]), mgr := s.mgr[1..]))
    case (LoadState, GotMsg(m)) =>
      Some(s.(sched := if s.state == StateReady then Accepted(m) else NotReady(m)))
    case (LoadState, NotReady(m)) =>
      Some(s.(sched := if s.state == StateHalting then Accepted(m) else SelectMsg))
    case (AddJob(t), Accepted(m)) =>
      if s.stuck then None
      else if !m.schedule then Some(s.(sched := SelectMsg))
      else
        (match S.Add(s.slot, t)
         case None => Some(s.(stuck := true))
         case Some(q) => Some(s.(slot := q, sched := SelectMsg)))
    case (Tick(now), SelectMsg) =>
      Some(s.(slot := S.Pop(s.slot, now), sched := if S.Due(s.slot, now) then Popped else SelectMsg))
    case (SendStart, Popped) =>
      if CTRL_CAP <= |s.ctrl| then None else Some(s.(ctrl := s.ctrl + [JobStart], sched := SelectMsg))
    case (Leave, SelectMsg) =>
      if s.exit && s.handler == Free then Some(s.(sched := Flushing)) else None
    case (Drain, Flushing) =>
      Some(if s.mgr == [] then s.(sched := Down) else s.(mgr := s.mgr[1..]))
    case _ => None
  }

  function CtrlOf(cmd: HttpCmd): Ctrl
    requires cmd.CmdStart? || cmd.CmdRestart? || cmd.CmdStop?
  {
    match cmd
    case CmdStart(force) => if force then JobForceStart else JobStart
    case CmdRestart => JobRestart
    case CmdStop => JobStop
  }

  predicate StartsJob(cmd: HttpCmd) {
    cmd.CmdStart? || cmd.CmdRestart?
  }

  /** The holder of the worker's lock can move. */
  predicate HandlerReady(s: Sys) {
    match s.handler
    case Free => false
    case Flush(_) => !s.stuck
    case Send(_) => |s.ctrl| < CTRL_CAP
    case HaltSend => |s.ctrl| < CTRL_CAP
    case HaltWait => s.core.jobsDone == 0
    case _ => true
  }

  /** Where it goes. A stop command to a disabled job is dropped, and so is a
      halt. */
  function NextHandler(pc: HandlerPc, state: JobState): HandlerPc {
    match pc
    case Flush(cmd) => Check(cmd)
    case Check(cmd) =>
      if StartsJob(cmd) || (cmd.CmdStop? && state != StateDisabled) then Send(CtrlOf(cmd)) else Free
    case HaltCheck => if state == StateDisabled then HaltWait else HaltSend
    case HaltSend => HaltWait
    case _ => Free
  }

  /** A start or restart command launches a control loop if the job is disabled. */
  predicate LaunchesLoop(pc: HandlerPc, state: JobState) {
    pc.Check? && StartsJob(pc.cmd) && state == StateDisabled
  }

  function Launch(k: Core): Core {
    k.(loops := k.loops + [NEW_LOOP])
  }

  function Queued(ctrl: seq<Ctrl>, pc: HandlerPc): seq<Ctrl> {
    match pc
    case Send(c) => ctrl + [c]
    case HaltSend => ctrl + [JobHalt]
    case _ => ctrl
  }

  /** One step of the command handler or of `Halt`. */
  function StepHandler(s: Sys): Option<Sys> {
    if !HandlerReady(s) then None
    else Some(s.(handler := NextHandler(s.handler, s.state),
                 slot := if s.handler.Flush? then S.Remove(s.slot) else s.slot,
                 core := if LaunchesLoop(s.handler, s.state) then Launch(s.core) else s.core,
                 ctrl := Queued(s.ctrl, s.handler),
                 closing := s.closing || s.handler.HaltWait?))
  }

  /** Signals are handled one after the other, so a `Halt` has closed `exit`
      before the next one begins; closing it twice panics. */
  function StepFront(s: Sys, move: FrontMove): Option<Sys> {
    match move
    case Accept(cmd) =>
      if s.handler != Free || SchedLocks(s.sched) then None
      else Some(s.(handler := Flush(cmd),
                   seen := s.seen.(starts := s.seen.starts + (if StartsJob(cmd) then 1 else 0),
                                   early := s.seen.early + (if StartsJob(cmd) && s.sched.AwaitLock? then 1 else 0),
                                   stops := s.seen.stops + (if cmd.CmdStop? then 1 else 0))))
    case AcceptHalt =>
      if s.handler != Free || SchedLocks(s.sched) || s.closing then None
      else Some(s.(handler := HaltCheck, seen := s.seen.(halts := s.seen.halts + 1)))
    case Advance => StepHandler(s)
    case CloseExit => if !s.closing then None else Some(s.(closing := false, exit := true, crashed := s.exit))
    case Inject(c) =>
      if !(c == JobDisable || c == JobPing) || CTRL_CAP <= |s.ctrl| then None
      else Some(s.(ctrl := s.ctrl + [c], seen := s.seen.(injects := s.seen.injects + 1)))
  }

  function Next(s: Sys, lbl: Label): Option<Sys> {
    if s.crashed then None
    else
      match lbl
      case LoopStep(i, move) => StepLoop(s, i, move)
      case RunStep(i, j, move) => StepRun(s, i, j, move)
      case StartStep => StepStart(s)
      case SchedStep(move) => StepSched(s, move)
      case FrontStep(move) => StepFront(s, move)
  }

  /** A whole interleaving. */
  function Interleave(s: Sys, ls: seq<Label>): Option<Sys> {
    if ls == [] then Some(s)
    else
      match Interleave(s, ls[..|ls| - 1])
      case None => None
      case Some(t) => Next(t, ls[|ls| - 1])
  }

  /** What a loop's step leaves alone. */
  lemma LoopStepFrame(s: Sys, i: nat, move: LoopMove)
    requires StepLoop(s, i, move).Some?
    ensures var k, s' := s.core, StepLoop(s, i, move).value;
            && i < |k.loops| && i < |s'.core.loops|
            && s'.core == Put(k, i, s'.core.loops[i]).(jobsDone := s'.core.jobsDone)
            && s' == s.(core := s'.core, ctrl := s'.ctrl, state := s'.state)
            && (if move.RecvCtrl? then s.ctrl != [] && s'.ctrl == s.ctrl[1..] else s'.ctrl == s.ctrl)
            && LoopAfter(k.loops[i], move, s.state, s.ctrl) == Some((s'.core.loops[i], s'.state))
  {
    hide LoopAfterDone, LoopAfterAct, LoopAfterRecv;
  }

  /** What a run's step leaves alone. */
  lemma RunStepFrame(s: Sys, i: nat, j: nat, move: RunMove)
    requires StepRun(s, i, j, move).Some?
    ensures var k, s' := s.core, StepRun(s, i, j, move).value;
            && i < |k.loops| && j < |k.loops[i].runs|
            && i < |s'.core.loops| && j < |s'.core.loops[i].runs|
            && var l' := PutRun(k.loops[i], j, s'.core.loops[i].runs[j]).(bypass := s'.core.loops[i].bypass);
            && s'.core == Put(k, i, l').(sem := s'.core.sem)
            && s' == s.(core := s'.core, mgr := s'.mgr, crashed := s'.crashed)
  {
    hide RunAfter, WrapAfter;
  }

  /** What a step of start-up leaves alone. */
  lemma StartFrame(s: Sys)
    requires StepStart(s).Some?
    ensures var s' := StepStart(s).value;
            && s' == s.(core := s'.core, state := s'.state, sched := s'.sched, slot := s'.slot, stuck := s'.stuck)
            && s'.core == (if s.sched.Launching? then Launch(s.core) else s.core)
            && s'.state == (if s.sched.Fetched? then InitialState(s.sched.status) else s.state)
            && (Unlaunched(s.sched) || s.sched.Scheduling? || s.sched.Unlocking?)
            && (Unlaunched(s'.sched) ==> Unlaunched(s.sched) && s'.sched.status == s.sched.status)
            && (Unlaunched(s.sched) ==>
                  (Unlaunched(s'.sched) <==> !s.sched.Launching? && !(s.sched.Fetched? && s.sched.status == Disabled)))
            && (!s.sched.Scheduling? ==> s'.slot == s.slot && s'.stuck == s.stuck)
  {
  }

  /** What a step of the scheduler leaves alone. */
  lemma SchedFrame(s: Sys, move: SchedMove)
    requires StepSched(s, move).Some?
    ensures var s' := StepSched(s, move).value;
            && s' == s.(slot := s'.slot, ctrl := s'.ctrl, mgr := s'.mgr, sched := s'.sched, stuck := s'.stuck)
            && (s'.ctrl == s.ctrl || s'.ctrl == s.ctrl + [JobStart]) && |s'.mgr| <= |s.mgr|
            && |s'.ctrl| <= (if |s.ctrl| <= CTRL_CAP then CTRL_CAP else |s.ctrl|)
            && (s.sched.SelectMsg? || s.sched.GotMsg? || s.sched.NotReady? || s.sched.Accepted? || s.sched.Popped?
                || s.sched.Flushing?)
            && (s'.sched.SelectMsg? || s'.sched.GotMsg? || s'.sched.NotReady? || s'.sched.Accepted? || s'.sched.Popped?
                || s'.sched.Flushing? || s'.sched.Down?)
            && (s'.sched.Flushing? ==> s.handler == Free || s.sched.Flushing?)
  {
  }

  /** No step removes a loop or changes the configuration. */
  lemma StepInRange(s: Sys, lbl: Label)
    requires Next(s, lbl).Some?
    ensures lbl.LoopStep? || lbl.RunStep? ==> lbl.i < |s.core.loops|
    ensures lbl.RunStep? ==> lbl.j < |s.core.loops[lbl.i].runs|
    ensures |s.core.loops| <= |Next(s, lbl).value.core.loops|
    ensures Next(s, lbl).value.core.cap == s.core.cap && Next(s, lbl).value.core.retries == s.core.retries
  {
    hide StepLoop, StepRun, StepSched, HandlerReady, NextHandler, Queued;
    match lbl
    case LoopStep(i, move) => LoopStepFrame(s, i, move);
    case RunStep(i, j, move) => RunStepFrame(s, i, j, move);
    case StartStep =>
    case SchedStep(move) => SchedFrame(s, move);
    case FrontStep(move) =>
  }

  // ---------------------------------------------------------------------
  // The invariant
  // ---------------------------------------------------------------------

  /** The run has signalled `jobDone` and its wrapper, if any, has returned. */
  predicate Quiet(r: Run) {
    r.phase == Releasing || r.phase == Over
  }

  /** The run's `runJobWrapper` is on the stack. */
  predicate Active(r: Run) {
    r.phase.Wrapping?
  }

  function HeldRun(r: Run): nat { if r.slot then 1 else 0 }
  function BypassedRun(r: Run): nat { if r.bypassed then 1 else 0 }
  function ActiveRun(r: Run): nat { if Active(r) then 1 else 0 }
  function ActiveBypassedRun(r: Run): nat { if Active(r) && r.bypassed then 1 else 0 }

  function Held(l: Loop): nat { Sum(l.runs, HeldRun) }
  function Bypassed(l: Loop): nat { Sum(l.runs, BypassedRun) }
  function ActiveIn(l: Loop): nat { Sum(l.runs, ActiveRun) }
  function ActiveBypassedIn(l: Loop): nat { Sum(l.runs, ActiveBypassedRun) }
  function Counted(l: Loop): nat { if l.pc == Launched || l.pc == Returned then 0 else 1 }

  ghost predicate RunOk(retries: int, r: Run) {
    && r.kills <= 1
    && r.closes + r.sends == (if Quiet(r) then 1 else 0)
    && r.slot == (r.phase == Releasing || (Active(r) && !r.bypassed))
    && (r.phase.Selecting? ==> r.trace == [] && !r.bypassed)
    && (r.phase.KillSelected? ==> r.trace == [] && !r.bypassed && r.kills == 1)
    && (r.phase.Releasing? ==> !r.bypassed)
    && (r.phase.Wrapping? ==> Shape(retries, r.phase.pc, r.trace))
    && (r.closes == 1 ==> InLanguage(retries, r.trace))
    && (r.sends == 1 ==> r.trace == [] && r.kills == 1)
  }

  predicate AtRest(pc: LoopPc) {
    pc.Launched? || pc.Top? || pc.Idle? || pc.GotIdle? || pc.Returned?
  }

  ghost predicate LoopOk(retries: int, l: Loop) {
    && (forall j | 0 <= j < |l.runs| :: RunOk(retries, l.runs[j]))
    && (forall j | 0 <= j < |l.runs| - 1 :: Quiet(l.runs[j]))
    && (l.abandoned ==> l.pc == Returned)
    && (AtRest(l.pc) && !l.abandoned && l.runs != [] ==> Quiet(Last(l)))
    && (!AtRest(l.pc) ==> l.runs != [])
    && (l.pc.Waiting? || l.pc.GotWaiting? || l.pc.Killing? ==> Last(l).kills == 0)
    && (l.pc.Killing? ==> l.pc.c != JobStart && l.pc.c != JobForceStart)
    && (l.pc.Awaiting? ==> Last(l).kills == 1 && l.pc.c in {JobStop, JobDisable, JobRestart, JobHalt})
    && Bypassed(l) + (if l.bypass then 1 else 0) + ForceInHand(l.pc) <= l.forced
  }

  ghost predicate CoreInv(k: Core) {
    && (forall i | 0 <= i < |k.loops| :: LoopOk(k.retries, k.loops[i]))
    && k.sem == Sum(k.loops, Held)
    && k.sem <= k.cap
    && k.jobsDone == Sum(k.loops, Counted)
  }

  /** Until start-up has launched it there is no control loop, and the cell stays
      empty until start-up fills it. */
  predicate StartupOk(s: Sys) {
    && (Unlaunched(s.sched) ==> s.core.loops == [] && s.mgr == [])
    && (Unlaunched(s.sched) || s.sched.Scheduling? ==> !s.slot.sched && !s.stuck)
    && (s.sched.AwaitLock? || s.sched.Fetched? ==> s.state == StateNone)
    && (s.sched.Launching? ==> s.sched.status != Disabled && s.state == InitialState(s.sched.status))
    && (SchedLocks(s.sched) ==> s.handler == Free)
  }

  ghost predicate Inv(s: Sys) {
    CoreInv(s.core) && |s.ctrl| <= CTRL_CAP && |s.mgr| <= MGR_CAP && StartupOk(s)
  }

  lemma BootInv(cap: nat, retries: int, status: SyncStatus, stime: int)
    ensures Inv(Boot(cap, retries, status, stime))
  {
  }

  /** Replacing one loop moves the two counters by that loop's own change. */
  lemma PutInv(k: Core, i: nat, l: Loop, k': Core)
    requires CoreInv(k) && i < |k.loops| && LoopOk(k.retries, l)
    requires k' == Put(k, i, l).(sem := k'.sem, jobsDone := k'.jobsDone)
    requires k'.sem + Held(k.loops[i]) == k.sem + Held(l) && k'.sem <= k.cap
    requires k'.jobsDone + Counted(k.loops[i]) == k.jobsDone + Counted(l)
    ensures CoreInv(k')
  {
    SumUpdate(k.loops, i, l, Held);
    SumUpdate(k.loops, i, l, Counted);
  }

  lemma PutRunSums(l: Loop, j: nat, r: Run)
    requires j < |l.runs|
    ensures Held(PutRun(l, j, r)) + HeldRun(l.runs[j]) == Held(l) + HeldRun(r)
    ensures Bypassed(PutRun(l, j, r)) + BypassedRun(l.runs[j]) == Bypassed(l) + BypassedRun(r)
  {
    SumUpdate(l.runs, j, r, HeldRun);
    SumUpdate(l.runs, j, r, BypassedRun);
  }

  predicate BeforeKill(pc: LoopPc) {
    pc.Waiting? || pc.GotWaiting? || pc.Killing?
  }

  function ForceInHand(pc: LoopPc): nat {
    if pc == GotWaiting(JobForceStart) || pc == GotIdle(JobForceStart) then 1 else 0
  }

  /** A loop moves and touches none of its runs. */
  lemma MoveOk(retries: int, l: Loop, l': Loop)
    requires LoopOk(retries, l) && l.pc != Returned && l' == l.(pc := l'.pc, bypass := l'.bypass, forced := l'.forced)
    requires AtRest(l.pc) == AtRest(l'.pc) && BeforeKill(l.pc) == BeforeKill(l'.pc) && !l'.pc.Awaiting?
    requires l'.pc.Killing? ==> l'.pc.c != JobStart && l'.pc.c != JobForceStart
    requires (if l'.bypass then 1 else 0) + ForceInHand(l'.pc) + l.forced
             <= (if l.bypass then 1 else 0) + ForceInHand(l.pc) + l'.forced
    ensures LoopOk(retries, l') && Held(l') == Held(l)
  {
  }

  /** A loop spawns a run. */
  lemma SpawnOk(retries: int, l: Loop)
    requires LoopOk(retries, l) && l.pc == Top
    ensures var l' := l.(pc := Waiting, runs := l.runs + [NEW_RUN]); LoopOk(retries, l') && Held(l') == Held(l)
  {
    SumAppend(l.runs, NEW_RUN, HeldRun);
    SumAppend(l.runs, NEW_RUN, BypassedRun);
  }

  /** A loop acts on its current run: it closes `kill` or receives `jobDone`. */
  lemma CurrentOk(retries: int, l: Loop, r': Run, pc': LoopPc, abandoned: bool)
    requires LoopOk(retries, l) && l.runs != [] && !AtRest(l.pc) && ForceInHand(l.pc) == 0 && ForceInHand(pc') == 0
    requires RunOk(retries, r') && r'.slot == Last(l).slot && r'.bypassed == Last(l).bypassed
    requires abandoned ==> pc' == Returned
    requires if AtRest(pc') then abandoned || Quiet(r')
             else r'.kills == 1 && pc'.Awaiting? && pc'.c in {JobStop, JobDisable, JobRestart, JobHalt}
    ensures var l' := PutLast(l, r').(pc := pc', abandoned := abandoned);
            LoopOk(retries, l') && Held(l') == Held(l)
  {
    PutRunSums(l, |l.runs| - 1, r');
  }

  /** A run moves on its own. */
  lemma RunMoveOk(retries: int, l: Loop, j: nat, r': Run, bypass: bool)
    requires LoopOk(retries, l) && j < |l.runs|
    requires var r := l.runs[j];
             && RunOk(retries, r') && r'.kills == r.kills && (Quiet(r) ==> Quiet(r'))
             && BypassedRun(r') + (if bypass then 1 else 0) == BypassedRun(r) + (if l.bypass then 1 else 0)
    ensures var l' := PutRun(l, j, r').(bypass := bypass);
            LoopOk(retries, l') && Held(l') + HeldRun(l.runs[j]) == Held(l) + HeldRun(r')
  {
    PutRunSums(l, j, r');
  }

  lemma DoneOk(retries: int, l: Loop)
    requires LoopOk(retries, l) && LoopAfterDone(l).Some?
    ensures LoopOk(retries, LoopAfterDone(l).value) && Held(LoopAfterDone(l).value) == Held(l)
    ensures Counted(l) == 1 && LoopAfterDone(l).value.pc != Launched
  {
    assert RunOk(retries, Last(l));
    CurrentOk(retries, l, DoneRun(Last(l)).value, LoopAfterDone(l).value.pc, false);
  }

  /** A loop about to close `kill` closes it for the first time. */
  lemma KillReady(retries: int, l: Loop)
    requires LoopOk(retries, l) && l.pc.Killing?
    ensures l.runs != [] && Last(l).kills == 0 && RunOk(retries, Last(l).(kills := 1))
    ensures l.pc.c != JobStart && l.pc.c != JobForceStart && !l.abandoned
  {
    assert l.runs != [] ==> RunOk(retries, Last(l));
  }

  lemma KillOk(retries: int, l: Loop, state: JobState)
    requires LoopOk(retries, l) && l.pc.Killing? && LoopAfterAct(l, state).Some?
    ensures LoopOk(retries, LoopAfterAct(l, state).value.0) && Held(LoopAfterAct(l, state).value.0) == Held(l)
  {
    hide LoopOk, RunOk, Held;
    KillReady(retries, l);
    var l' := LoopAfterAct(l, state).value.0;
    CurrentOk(retries, l, Last(l).(kills := 1), l'.pc, l'.abandoned);
  }

  lemma ActOk(retries: int, l: Loop, state: JobState)
    requires LoopOk(retries, l) && LoopAfterAct(l, state).Some?
    ensures LoopOk(retries, LoopAfterAct(l, state).value.0) && Held(LoopAfterAct(l, state).value.0) == Held(l)
    ensures Counted(l) == 1 && LoopAfterAct(l, state).value.0.pc != Launched
  {
    hide LoopOk, RunOk, Held;
    if l.pc.Killing? {
      KillOk(retries, l, state);
    } else {
      MoveOk(retries, l, LoopAfterAct(l, state).value.0);
    }
  }

  lemma StandOk(retries: int, l: Loop, pc: LoopPc)
    requires LoopOk(retries, l) && (l.pc.Launched? || l.pc.Top?) && (pc.Top? || pc.Idle?)
    ensures LoopOk(retries, l.(pc := pc)) && Held(l.(pc := pc)) == Held(l)
  {
    MoveOk(retries, l, l.(pc := pc));
  }

  lemma RecvOk(retries: int, l: Loop, c: Ctrl)
    requires LoopOk(retries, l) && LoopAfterRecv(l, c).Some?
    ensures LoopOk(retries, LoopAfterRecv(l, c).value) && Held(LoopAfterRecv(l, c).value) == Held(l)
    ensures Counted(l) == 1 == Counted(LoopAfterRecv(l, c).value)
  {
    MoveOk(retries, l, LoopAfterRecv(l, c).value);
  }

  /** A loop's step keeps the loop in order. */
  lemma LoopAfterOk(retries: int, l: Loop, move: LoopMove, state: JobState, ctrl: seq<Ctrl>)
    requires LoopOk(retries, l) && LoopAfter(l, move, state, ctrl).Some?
    ensures var l' := LoopAfter(l, move, state, ctrl).value.0;
            && LoopOk(retries, l') && Held(l') == Held(l)
            && Counted(l') == Counted(l) + (if move.CountIn? then 1 else if l'.pc == Returned then -1 else 0)
  {
    hide LoopOk, LoopAfterDone, LoopAfterAct, LoopAfterRecv, Held;
    match move {
      case CountIn => StandOk(retries, l, Top);
      case CheckState => SpawnOk(retries, l); StandOk(retries, l, Idle);
      case RecvDone => DoneOk(retries, l);
      case RecvCtrl => RecvOk(retries, l, ctrl[0]);
      case Act => ActOk(retries, l, state);
    }
  }

  lemma LoopStepInv(s: Sys, i: nat, move: LoopMove)
    requires Inv(s) && i < |s.core.loops| && StepLoop(s, i, move).Some?
    ensures Inv(StepLoop(s, i, move).value)
  {
    LoopStepFrame(s, i, move);
    hide LoopOk, LoopAfter, Held, Counted;
    assert LoopOk(s.core.retries, s.core.loops[i]);
    LoopAfterOk(s.core.retries, s.core.loops[i], move, s.state, s.ctrl);
    var k' := StepLoop(s, i, move).value.core;
    PutInv(s.core, i, k'.loops[i], k');
  }

  /** What a `runJob` goroutine does keeps its own record in order. */
  lemma RunAfterOk(retries: int, r: Run, move: RunMove, bypass: bool)
    requires RunOk(retries, r) && RunAfter(r, move, bypass).Some?
    ensures var r' := RunAfter(r, move, bypass).value;
            && RunOk(retries, r') && r'.kills == r.kills && (Quiet(r) ==> Quiet(r'))
            && HeldRun(r') == HeldRun(r) + (if move.Acquire? then 1 else 0) - (if move.Release? then 1 else 0)
            && BypassedRun(r') == BypassedRun(r) + (if move.Bypass? then 1 else 0)
            && (move.Bypass? ==> bypass)
  {
  }

  lemma WrapAfterOk(s: Sys, r: Run, choice: Choice)
    requires RunOk(s.core.retries, r) && WrapAfter(s, r, choice).Some?
    ensures var r' := WrapAfter(s, r, choice).value;
            && RunOk(s.core.retries, r') && r'.kills == r.kills && r'.slot == r.slot && r'.bypassed == r.bypassed
            && Active(r) && Active(r') && (MGR_CAP <= |s.mgr| ==> !r.phase.pc.Sending?)
  {
    StepKeepsShape(s.core.retries, r.phase.pc, choice, r.trace);
  }

  /** A run's step in terms of the one run it changes. */
  lemma RunStepOk(s: Sys, i: nat, j: nat, move: RunMove)
    requires i < |s.core.loops| && j < |s.core.loops[i].runs| && RunOk(s.core.retries, s.core.loops[i].runs[j])
    requires StepRun(s, i, j, move).Some? && s.core.sem <= s.core.cap && |s.mgr| <= MGR_CAP
    ensures var k, s' := s.core, StepRun(s, i, j, move).value;
            && i < |s'.core.loops| && j < |s'.core.loops[i].runs|
            && var l, l' := k.loops[i], s'.core.loops[i];
            && var r, r' := l.runs[j], l'.runs[j];
            && RunOk(k.retries, r') && r'.kills == r.kills && (Quiet(r) ==> Quiet(r'))
            && BypassedRun(r') + (if l'.bypass then 1 else 0) == BypassedRun(r) + (if l.bypass then 1 else 0)
            && l' == PutRun(l, j, r').(bypass := l'.bypass)
            && s'.core == Put(k, i, l').(sem := k.sem + HeldRun(r') - HeldRun(r))
            && s'.core.sem <= k.cap && |s'.mgr| <= MGR_CAP
  {
    hide RunOk, LoopOk, RunAfter, WrapAfter;
    var l := s.core.loops[i];
    if move.Wrap? {
      WrapAfterOk(s, l.runs[j], move.choice);
    } else {
      RunAfterOk(s.core.retries, l.runs[j], move, l.bypass);
    }
  }

  lemma RunStepInv(s: Sys, i: nat, j: nat, move: RunMove)
    requires Inv(s) && i < |s.core.loops| && j < |s.core.loops[i].runs| && StepRun(s, i, j, move).Some?
    ensures Inv(StepRun(s, i, j, move).value)
  {
    hide RunOk, StepRun;
    var k := s.core;
    var l := k.loops[i];
    assert LoopOk(k.retries, l) && RunOk(k.retries, l.runs[j]);
    RunStepOk(s, i, j, move);
    RunStepFrame(s, i, j, move);
    var k' := StepRun(s, i, j, move).value.core;
    var l' := k'.loops[i];
    RunMoveOk(k.retries, l, j, l'.runs[j], l'.bypass);
    PutInv(k, i, l', k');
  }

  lemma LaunchInv(k: Core)
    requires CoreInv(k)
    ensures CoreInv(Launch(k))
  {
    SumAppend(k.loops, NEW_LOOP, Held);
    SumAppend(k.loops, NEW_LOOP, Counted);
  }

  lemma StartStepInv(s: Sys)
    requires Inv(s) && StepStart(s).Some?
    ensures Inv(StepStart(s).value)
  {
    hide CoreInv;
    LaunchInv(s.core);
  }

  lemma SchedStepInv(s: Sys, move: SchedMove)
    requires Inv(s) && StepSched(s, move).Some?
    ensures Inv(StepSched(s, move).value)
  {
    hide CoreInv, StepSched;
    SchedFrame(s, move);
  }

  lemma HandlerStepInv(s: Sys)
    requires Inv(s) && StepHandler(s).Some?
    ensures Inv(StepHandler(s).value)
  {
    hide CoreInv, NextHandler;
    LaunchInv(s.core);
  }

  lemma FrontStepInv(s: Sys, move: FrontMove)
    requires Inv(s) && StepFront(s, move).Some?
    ensures Inv(StepFront(s, move).value)
  {
    if move.Advance? {
      HandlerStepInv(s);
    }
    hide CoreInv, StepHandler;
  }

  lemma NextInv(s: Sys, lbl: Label)
    requires Inv(s) && Next(s, lbl).Some?
    ensures Inv(Next(s, lbl).value)
  {
    StepInRange(s, lbl);
    hide Inv, StepLoop, StepRun, StepStart, StepSched, StepFront;
    match lbl
    case LoopStep(i, move) => LoopStepInv(s, i, move);
    case RunStep(i, j, move) => RunStepInv(s, i, j, move);
    case StartStep => StartStepInv(s);
    case SchedStep(move) => SchedStepInv(s, move);
    case FrontStep(move) => FrontStepInv(s, move);
  }

  lemma {:induction false} InterleaveInv(s: Sys, ls: seq<Label>)
    requires Inv(s) && Interleave(s, ls).Some?
    ensures Inv(Interleave(s, ls).value)
  {
    if ls != [] {
      InterleaveInv(s, ls[..|ls| - 1]);
      NextInv(Interleave(s, ls[..|ls| - 1]).value, ls[|ls| - 1]);
    }
  }
}
