/** From a sync run to the manager's record: `runSchedule` takes the run's
    messages one by one; it drops a message if the job is neither ready nor
    halting, and otherwise reports the status, schedules the next sync when asked
    to, and reports the schedule. Commands and ticks touch the schedule cell, and
    others the manager's record, in between.
    Models worker/worker.go, lines 97 to 99, 193 to 225 and 267 to 291, with
    worker/job.go, lines 124 to 240, and manager/server.go, lines 525 to 616.
 */
module Delivery {
  import opened JobTypes
  import opened Wrapper
  import S = Schedule
  import M = Manager

  /** What others do to the schedule cell: a command flushes it, a tick pops it
      if it is due. */
  datatype Touch = Flush | Tick(now: int)

  /** What others ask of the manager. */
  datatype Other = Registers(now: int) | Enables(now: int) | Disables(now: int) | Stops(now: int) | Resizes(size: nat)

  /** A message and what happens around it: the touches before it is handled and
      the requests before its status is stored; whether it is accepted; the times
      (Unix seconds) at which the manager stored its status, the worker computed
      the next schedule, and the manager stored it; the requests in between; and
      whether a command flushed the cell between `AddJob` and `GetJob`, or late,
      between `GetJob` and the manager storing the schedule. */
  datatype Handled = Handled(msg: JobMessage, before: seq<Touch>, asked: seq<Other>, accepted: bool, size: nat,
                             updated: int, between: seq<Other>, added: int, flushed: bool, late: bool, reported: int)

  /** The manager's record, the worker's schedule cell, and how often `AddJob`
      was called. */
  datatype Desk = Desk(job: M.JobStatus, slot: S.Slot, adds: nat)

  function Touched(q: S.Slot, ts: seq<Touch>): S.Slot {
    if ts == [] then q
    else
      var p := Touched(q, ts[..|ts| - 1]);
      match ts[|ts| - 1]
      case Flush => S.Remove(p)
      case Tick(now) => S.Pop(p, now)
  }

  /** The touch leaves the entry of a cell alone. */
  predicate Spares(q: S.Slot, t: Touch) {
    t.Tick? && !S.Due(q, t.now)
  }

  /** An entry survives touches exactly if none of them flushes it or finds it
      due, and touches never make one. */
  lemma {:induction false} TouchedIff(q: S.Slot, ts: seq<Touch>)
    ensures Touched(q, ts).sched <==> q.sched && forall t | t in ts :: Spares(q, t)
    ensures Touched(q, ts).nextScheduled == q.nextScheduled
  {
    if ts != [] {
      var before, t := ts[..|ts| - 1], ts[|ts| - 1];
      TouchedIff(q, before);
      assert ts == before + [t] && t in ts;
      assert forall u :: u in ts <==> u in before || u == t;
    }
  }

  /** The status body a worker sends leaves every time, the schedule included, zero. */
  function Body(x: Handled): M.JobStatus {
    M.ZERO.(status := x.msg.status, size := x.size)
  }

  function Does(job: M.JobStatus, o: Other): M.JobStatus {
    match o
    case Registers(now) => M.Apply(job, M.Register, now)
    case Enables(now) => M.Apply(job, M.Enable, now)
    case Disables(now) => M.Apply(job, M.Disable, now)
    case Stops(now) => M.Apply(job, M.Stop, now)
    case Resizes(size) => M.Apply(job, M.UpdateSize(size), 0)
  }

  function Asked(job: M.JobStatus, os: seq<Other>): M.JobStatus {
    if os == [] then job else Does(Asked(job, os[..|os| - 1]), os[|os| - 1])
  }

  /** The status left by the last of the requests that sets one. */
  function StatusAfter(status: SyncStatus, os: seq<Other>): SyncStatus {
    if os == [] then status
    else
      match os[|os| - 1]
      case Enables(_) => Created
      case Disables(_) => SyncStatus.Disabled
      case Stops(_) => Paused
      case _ => StatusAfter(status, os[..|os| - 1])
  }

  /** The size left by the last of the requests that sets one. */
  function SizeAfter(size: nat, os: seq<Other>): nat {
    if os == [] then size
    else if os[|os| - 1].Resizes? then os[|os| - 1].size
    else SizeAfter(size, os[..|os| - 1])
  }

  /** Others change the status and the size, and none of a run's times nor the
      schedule. */
  lemma {:induction false} AskedKeeps(job: M.JobStatus, os: seq<Other>)
    ensures var j := Asked(job, os);
            && j.status == StatusAfter(job.status, os) && (j.status == PreSyncing ==> job.status == PreSyncing)
            && j.lastUpdate == job.lastUpdate && j.lastStarted == job.lastStarted && j.lastEnded == job.lastEnded
            && j.scheduled == job.scheduled && j.size == SizeAfter(job.size, os)
  {
    if os != [] {
      AskedKeeps(job, os[..|os| - 1]);
    }
  }

  /** The end of handling an accepted message: the schedule is reported. */
  function Reported(job: M.JobStatus, q: S.Slot, adds: nat, x: Handled): Desk {
    var q' := if x.flushed then S.Remove(q) else q;
    Desk(M.Apply(job, M.UpdateSchedule(S.Get(q')), x.reported), if x.late then S.Remove(q') else q', adds)
  }

  /** One message; None if `AddJob` deadlocks. `interval` is in seconds. */
  function Handle(d: Desk, x: Handled, interval: int): Option<Desk> {
    var slot, job := Touched(d.slot, x.before), Asked(d.job, x.asked);
    if !x.accepted then Some(d.(job := job, slot := slot))
    else
      var job := Asked(M.Apply(job, M.Update(Body(x)), x.updated), x.between);
      if !x.msg.schedule then Some(Reported(job, slot, d.adds, x))
      else
        match S.Add(slot, x.added + interval)
        case None => None
        case Some(q) => Some(Reported(job, q, d.adds + 1, x))
  }

  function HandleAll(d: Desk, xs: seq<Handled>, n: nat, interval: int): Option<Desk>
    requires n <= |xs|
  {
    if n == 0 then Some(d)
    else
      match HandleAll(d, xs, n - 1, interval)
      case None => None
      case Some(e) => Handle(e, xs[n - 1], interval)
  }

  function Messages(xs: seq<Handled>): seq<JobMessage> {
    seq(|xs|, i requires 0 <= i < |xs| => xs[i].msg)
  }

  /** A command flushes the cell while the message is handled. */
  predicate Flushes(x: Handled) {
    x.accepted && (x.flushed || x.late)
  }

  /** What others have done to the cell by the time message `n` is looked at. */
  function Touches(xs: seq<Handled>, n: nat): seq<Touch>
    requires n < |xs|
  {
    if n == 0 then xs[0].before
    else Touches(xs, n - 1) + (if Flushes(xs[n - 1]) then [Flush] else []) + xs[n].before
  }

  /** The entry the run found in the cell is still there. */
  predicate Kept(d: Desk, xs: seq<Handled>, n: nat)
    requires n < |xs|
  {
    d.slot.sched && forall t | t in Touches(xs, n) :: Spares(d.slot, t)
  }

  /** The message asks to be scheduled and is listened to. */
  predicate Asks(x: Handled) {
    x.accepted && x.msg.schedule
  }

  /** What the desk shows after `n` messages of one run: `AddJob` got stuck
      exactly if the last one asks and the entry the run found is still in the
      cell, and otherwise the record and the cell are these. */
  ghost predicate Midway(d: Desk, xs: seq<Handled>, n: nat, interval: int)
    requires 0 < n <= |xs|
  {
    var e := HandleAll(d, xs, n, interval);
    && (e.None? <==> Asks(xs[n - 1]) && Kept(d, xs, n - 1))
    && (e.Some? ==> Shows(d, xs, n, interval, e.value))
  }

  /** When the record says the run started, from its first message. */
  function StartedAt(d: Desk, first: Handled): int {
    if first.accepted && StatusAfter(d.job.status, first.asked) != PreSyncing then first.updated else d.job.lastStarted
  }

  /** The time of the entry, if there is one. */
  function EntryTime(d: Desk, x: Handled, interval: int): int {
    if Asks(x) then x.added + interval else d.slot.nextScheduled
  }

  predicate Shows(d: Desk, xs: seq<Handled>, n: nat, interval: int, e: Desk)
    requires 0 < n <= |xs|
  {
    var x := xs[n - 1];
    && (x.accepted ==> e.job.status == StatusAfter(x.msg.status, x.between))
    && (x.accepted && x.size != 0 ==> e.job.size == SizeAfter(x.size, x.between))
    && (x.accepted && !x.late ==> e.job.scheduled == S.Get(e.slot))
    && (x.accepted && x.late ==>
          e.job.scheduled == if x.flushed || !(Asks(x) || Kept(d, xs, n - 1)) then 0 else EntryTime(d, x, interval))
    && e.job.lastStarted == StartedAt(d, xs[0])
    && e.job.lastUpdate == (if x.accepted && x.msg.status == Success then x.updated else d.job.lastUpdate)
    && (x.accepted && (x.msg.status == Success || x.msg.status == Failed) ==> e.job.lastEnded == x.updated)
    && e.adds == d.adds + (if Asks(x) then 1 else 0)
    && (e.slot.sched <==> !Flushes(x) && (Asks(x) || Kept(d, xs, n - 1)))
    && (e.slot.sched ==> e.slot.nextScheduled == EntryTime(d, x, interval))
  }

  /** A run's message sequence, as far as a reader of the channel may rely on it. */
  predicate RunShaped(t: seq<JobMessage>) {
    && t != []
    && t[0].status == PreSyncing
    && (forall i | 0 < i < |t| :: t[i].status != PreSyncing)
    && forall i | 0 <= i < |t| - 1 :: !t[i].schedule && t[i].status != Success
  }

  /** The cell before message `n` of a run, on which nobody has called `AddJob`. */
  lemma {:induction false} CellBefore(d: Desk, xs: seq<Handled>, n: nat, interval: int)
    requires RunShaped(Messages(xs)) && n < |xs|
    ensures var e := HandleAll(d, xs, n, interval);
            e.Some? && Touched(e.value.slot, xs[n].before) == Touched(d.slot, Touches(xs, n)) && e.value.adds == d.adds
  {
    if n > 0 {
      CellBefore(d, xs, n - 1, interval);
      assert xs[n - 1].msg == Messages(xs)[n - 1];
      var x := xs[n - 1];
      var middle := if Flushes(x) then [Flush] else [];
      FlushLast(d.slot, Touches(xs, n - 1));
      assert Touches(xs, n - 1) + [] == Touches(xs, n - 1);
      assert Touched(d.slot, Touches(xs, n - 1) + middle) == HandleAll(d, xs, n, interval).value.slot;
      hide Touched;
      TouchedConcat(d.slot, Touches(xs, n - 1) + middle, xs[n].before);
    }
  }

  lemma FlushLast(q: S.Slot, ts: seq<Touch>)
    ensures Touched(q, ts + [Flush]) == S.Remove(Touched(q, ts))
  {
    assert (ts + [Flush])[..|ts|] == ts;
  }

  lemma {:induction false} TouchedConcat(q: S.Slot, a: seq<Touch>, b: seq<Touch>)
    ensures Touched(q, a + b) == Touched(Touched(q, a), b)
  {
    if b == [] {
      assert a + b == a;
    } else {
      assert (a + b)[..|a + b| - 1] == a + b[..|b| - 1];
      TouchedConcat(q, a, b[..|b| - 1]);
    }
  }

  /** What a message of a run does to the times of the record. */
  lemma {:induction false} TimesAfter(d: Desk, xs: seq<Handled>, n: nat, interval: int)
    requires RunShaped(Messages(xs)) && 0 < n <= |xs| && HandleAll(d, xs, n, interval).Some?
    ensures var e, x := HandleAll(d, xs, n, interval).value, xs[n - 1];
            && e.job.lastStarted == StartedAt(d, xs[0])
            && e.job.lastUpdate == (if x.accepted && x.msg.status == Success then x.updated else d.job.lastUpdate)
  {
    hide Touched, S.Add, Asked, StatusAfter;
    assert xs[0].msg == Messages(xs)[0] && xs[n - 1].msg == Messages(xs)[n - 1];
    if n == 1 {
      assert HandleAll(d, xs, 0, interval) == Some(d);
      JobTimes(d, xs[0], interval);
    } else {
      TimesAfter(d, xs, n - 1, interval);
      assert xs[n - 2].msg == Messages(xs)[n - 2];
      JobTimes(HandleAll(d, xs, n - 1, interval).value, xs[n - 1], interval);
    }
  }

  /** The record after one message that was handled to the end. */
  lemma JobTimes(d: Desk, x: Handled, interval: int)
    requires Handle(d, x, interval).Some?
    ensures var e := Handle(d, x, interval).value;
            && e.job.lastStarted == (if x.msg.status == PreSyncing then StartedAt(d, x) else d.job.lastStarted)
            && e.job.lastUpdate == (if x.accepted && x.msg.status == Success then x.updated else d.job.lastUpdate)
            && (x.accepted && (x.msg.status == Success || x.msg.status == Failed) ==> e.job.lastEnded == x.updated)
            && (x.accepted ==> e.job.status == StatusAfter(x.msg.status, x.between))
            && (x.accepted && x.size != 0 ==> e.job.size == SizeAfter(x.size, x.between))
  {
    AskedKeeps(d.job, x.asked);
    AskedKeeps(M.Apply(Asked(d.job, x.asked), M.Update(Body(x)), x.updated), x.between);
    hide Touched, Asked, StatusAfter, SizeAfter;
  }

  /** After every message of one run. */
  lemma EveryMessage(d: Desk, xs: seq<Handled>, n: nat, interval: int)
    requires RunShaped(Messages(xs)) && 0 < n <= |xs|
    ensures Midway(d, xs, n, interval)
  {
    CellBefore(d, xs, n - 1, interval);
    TouchedIff(d.slot, Touches(xs, n - 1));
    var m := n - 1;
    if HandleAll(d, xs, n, interval).Some? {
      TimesAfter(d, xs, n, interval);
      JobTimes(HandleAll(d, xs, m, interval).value, xs[m], interval);
    }
    hide Touched, Touches, Asked, StatusAfter;
  }

  /** One sync run on the manager's record, for every word a run can report, every
      prior record and cell, and whatever commands, ticks, the job's state and
      other requests do to the messages, the cell and the record: `AddJob`
      deadlocks exactly if the last message asks to be scheduled, is accepted, and
      finds the entry the run found; otherwise after each accepted message the
      manager's schedule is the worker's as `GetJob` read it, although reporting
      the status had zeroed it; LastStarted is when the run's PreSyncing was
      stored, unless it was dropped or the record already said PreSyncing;
      LastEnded is when an accepted last message of success or failure was stored;
      LastUpdate moves exactly on an accepted success.
      The messages of one run stand together as long as runs do not overlap:
      `Overlap.MessagesInTurn`, and `Overlap.OverlapIff` for exactly when. */
  lemma RunOnRecord(retries: int, d: Desk, xs: seq<Handled>, interval: int)
    requires InLanguage(retries, Messages(xs))
    ensures xs != []
    ensures forall n | 0 < n <= |xs| :: Midway(d, xs, n, interval)
    ensures var e, x := HandleAll(d, xs, |xs|, interval), xs[|xs| - 1];
            && (e.None? <==> Asks(x) && Kept(d, xs, |xs| - 1))
            && (e.Some? ==> (e.value.adds == d.adds + 1 <==> Asks(x)))
            && (e.Some? && StatusAfter(d.job.status, xs[0].asked) != PreSyncing && xs[0].accepted && x.accepted
                && (x.msg.status == Success || x.msg.status == Failed)
                && (forall i, j | 0 <= i < j < |xs| :: xs[i].updated <= xs[j].updated) ==>
                  e.value.job.lastStarted <= e.value.job.lastEnded)
  {
    LanguageFacts(retries, Messages(xs));
    forall n | 0 < n <= |xs| ensures Midway(d, xs, n, interval) {
      EveryMessage(d, xs, n, interval);
    }
    assert Midway(d, xs, |xs|, interval);
    hide HandleAll, Kept;
  }

  // ---------------------------------------------------------------------
  // No lost reschedule
  // ---------------------------------------------------------------------

  /** A choice of an undisturbed run: not killed, every `Terminate` succeeds, the
      job ready whenever the run looks. */
  predicate Undisturbed(c: Choice) {
    && !c.Kill?
    && (c.Timeout? ==> c.terminated)
    && (c.ReadState? ==> c.ready)
  }

  predicate LastSchedules(t: seq<JobMessage>) {
    t != [] && t[|t| - 1].schedule
  }

  /** What an undisturbed run has said by the time it stands at `pc`. */
  predicate OnCourse(retries: int, pc: Pc, t: seq<JobMessage>) {
    match pc
    case Test(k) => k < retries || LastSchedules(t)
    case PreExec(k) => k < retries
    case Starting(k) => k < retries
    case Running(k, _) => k < retries
    case PostExec(k, _, stop) => k < retries && !stop
    case PostHooks(k, _, stop) => k < retries && !stop
    case Report(k, _, stop) => k < retries && !stop
    case Sending(m, next) => OnCourse(retries, next, t + [m])
    case Done => LastSchedules(t)
    case _ => true
  }

  lemma {:induction false} StaysOnCourse(retries: int, pc: Pc, cs: seq<Choice>, t: seq<JobMessage>)
    requires Exec(retries, pc, cs).Some? && OnCourse(retries, pc, t) && 0 < retries
    requires forall c | c in cs :: Undisturbed(c)
    ensures OnCourse(retries, Exec(retries, pc, cs).value.pc, t + Exec(retries, pc, cs).value.trace)
    decreases |cs|
  {
    if cs == [] {
      assert t + [] == t;
    } else {
      assert Undisturbed(cs[0]);
      var next := Step(retries, pc, cs[0]).value;
      StepOnCourse(retries, pc, cs[0], t);
      StaysOnCourse(retries, next, cs[1..], t + Emitted(pc));
      var o := Exec(retries, next, cs[1..]).value;
      assert t + (Emitted(pc) + o.trace) == t + Emitted(pc) + o.trace;
    }
  }

  lemma StepOnCourse(retries: int, pc: Pc, c: Choice, t: seq<JobMessage>)
    requires Step(retries, pc, c).Some? && OnCourse(retries, pc, t) && Undisturbed(c) && 0 < retries
    ensures OnCourse(retries, Step(retries, pc, c).value, t + Emitted(pc))
  {
    assert t + [] == t;
  }

  /** No lost reschedule: however its hooks, its provider and its timeouts turn
      out, an undisturbed run of a job with at least one attempt calls `AddJob`
      on its last message, if that is accepted, and on no other; the call comes
      back exactly if the entry the run found, if any, was flushed or popped by
      then, and leaves the cell at that message's time plus the interval unless a
      command flushes it at once. One run's messages, as in `RunOnRecord`. */
  lemma NoLostReschedule(retries: int, cs: seq<Choice>, d: Desk, xs: seq<Handled>, interval: int)
    requires 0 < retries && (forall c | c in cs :: Undisturbed(c))
    requires Exec(retries, START, cs).Some? && Exec(retries, START, cs).value == Outcome(Done, Messages(xs))
    ensures xs != []
    ensures var e, x := HandleAll(d, xs, |xs|, interval), xs[|xs| - 1];
            && (e.None? <==> x.accepted && Kept(d, xs, |xs| - 1))
            && (!d.slot.sched ==> e.Some?)
            && (e.Some? ==> e.value.adds == d.adds + if x.accepted then 1 else 0)
            && (e.Some? && x.accepted ==>
                  && e.value.slot.sched == !(x.flushed || x.late)
                  && (e.value.slot.sched ==> e.value.slot == S.Slot(true, x.added + interval))
                  && e.value.job.scheduled == if x.flushed then 0 else x.added + interval)
  {
    LastAsks(retries, cs, xs);
    hide Exec;
    RunOnRecord(retries, d, xs, interval);
    assert Midway(d, xs, |xs|, interval);
    hide HandleAll, Touches, InLanguage;
  }

  /** An undisturbed run reports a word of the language that ends in a message
      asking to be scheduled. */
  lemma LastAsks(retries: int, cs: seq<Choice>, xs: seq<Handled>)
    requires 0 < retries && (forall c | c in cs :: Undisturbed(c))
    requires Exec(retries, START, cs).Some? && Exec(retries, START, cs).value == Outcome(Done, Messages(xs))
    ensures InLanguage(retries, Messages(xs)) && xs != [] && xs[|xs| - 1].msg.schedule
  {
    TraceSound(retries, cs);
    StaysOnCourse(retries, START, cs, []);
    assert [] + Messages(xs) == Messages(xs);
  }

  // ---------------------------------------------------------------------
  // Overlapping runs
  // ---------------------------------------------------------------------

  /** A message accepted with nothing happening around it. */
  function Accepted(msg: JobMessage, now: int): Handled {
    Handled(msg, [], [], true, 0, now, [], now, false, false, now)
  }

  /** The messages of two successful runs that overlap. */
  function TwoRuns(now: int): seq<Handled> {
    var done := JobMessage(Success, true);
    [Accepted(PRE_MSG, now), Accepted(PRE_MSG, now), Accepted(SYNC_MSG, now), Accepted(SYNC_MSG, now),
     Accepted(done, now), Accepted(done, now)]
  }

  /** Why runs must not overlap: from any record and an empty cell, with nothing
      happening around the messages, the second run's request meets the first
      run's entry and `AddJob` deadlocks. */
  lemma OverlapDeadlocks(d: Desk, now: int, interval: int)
    requires !d.slot.sched
    ensures HandleAll(d, TwoRuns(now), 5, interval).Some? && HandleAll(d, TwoRuns(now), 6, interval).None?
  {
    var xs := TwoRuns(now);
    var d1 := Quietly(d, xs, 0, interval);
    var d2 := Quietly(d1, xs, 1, interval);
    var d3 := Quietly(d2, xs, 2, interval);
    var d4 := Quietly(d3, xs, 3, interval);
    assert HandleAll(d, xs, 0, interval) == Some(d);
    assert HandleAll(d, xs, 1, interval) == Some(d1);
    assert HandleAll(d, xs, 2, interval) == Some(d2);
    assert HandleAll(d, xs, 3, interval) == Some(d3);
    assert HandleAll(d, xs, 4, interval) == Some(d4);
    assert Handle(d4, xs[4], interval).Some? && Handle(d4, xs[4], interval).value.slot.sched;
  }

  lemma Quietly(d: Desk, xs: seq<Handled>, n: nat, interval: int) returns (e: Desk)
    requires n < |xs| && !xs[n].msg.schedule && xs[n].before == [] && xs[n].accepted
    ensures Handle(d, xs[n], interval) == Some(e) && (!d.slot.sched ==> !e.slot.sched)
  {
    e := Handle(d, xs[n], interval).value;
  }
}
