/** The manager's record of a mirror job and the requests that change it, and
    the timeline the record keeps: each of its timestamps against the whole
    history of requests.
    Models manager/server.go, lines 491 to 737.
 */
module Manager {
  import opened JobTypes

  /** A job's status; the upstream URL and the error text are left out. The
      status of a job nobody reported on yet is `NoStatus`. */
  datatype JobStatus = JobStatus(
    status: SyncStatus, lastUpdate: int, lastStarted: int, lastEnded: int, scheduled: int,
    size: nat, lastOnline: int, lastRegister: int)

  const ZERO := JobStatus(NoStatus, 0, 0, 0, 0, 0, 0, 0)

  datatype Request =
    | Update(body: JobStatus)
    | UpdateSchedule(next: int)
    | UpdateSize(size: nat)
    | Register
    | Enable
    | Disable
    | Stop

  /** The record after a request handled at `now`. */
  function Apply(cur: JobStatus, req: Request, now: int): JobStatus {
    match req
    case Update(body) =>
      JobStatus(
        body.status,
        if body.status == Success then now else cur.lastUpdate,
        if body.status == PreSyncing && cur.status != PreSyncing then now else cur.lastStarted,
        if body.status == Success || body.status == Failed then now else cur.lastEnded,
        body.scheduled,
        if body.size == 0 then cur.size else body.size,
        now,
        cur.lastRegister)
    case UpdateSchedule(next) => cur.(scheduled := next, lastOnline := now)
    case UpdateSize(size) => cur.(size := size)
    case Register => cur.(lastOnline := now, lastRegister := now)
    case Enable => cur.(status := Created, lastOnline := now)
    case Disable => cur.(status := Disabled, lastOnline := now)
    case Stop => cur.(status := Paused, lastOnline := now)
  }

  /** The stored job, changed in place by the request handlers. */
  class Server {
    var job: JobStatus

    constructor ()
      ensures job == ZERO
    {
      job := ZERO;
    }

    /** The handler fills the received status in field by field and stores it. */
    method UpdateJob(body: JobStatus, now: int)
      modifies this
      ensures job == Apply(old(job), Update(body), now)
    {
      var status := body;
      status := status.(lastOnline := now);
      status := status.(lastRegister := job.lastRegister);
      if status.status == PreSyncing && job.status != PreSyncing {
        status := status.(lastStarted := now);
      } else {
        status := status.(lastStarted := job.lastStarted);
      }
      if status.status == Success {
        status := status.(lastUpdate := now);
      } else {
        status := status.(lastUpdate := job.lastUpdate);
      }
      if status.status == Success || status.status == Failed {
        status := status.(lastEnded := now);
      } else {
        status := status.(lastEnded := job.lastEnded);
      }
      if job.size > 0 {
        if status.size == 0 {
          status := status.(size := job.size);
        }
      }
      job := status;
    }

    /** The other handlers change the fields they name and no other. */
    method Handle(req: Request, now: int)
      modifies this
      ensures job == Apply(old(job), req, now)
    {
      match req
      case Update(body) => UpdateJob(body, now);
      case UpdateSchedule(next) =>
        job := job.(scheduled := next);
        job := job.(lastOnline := now);
      case UpdateSize(size) => job := job.(size := size);
      case Register =>
        job := job.(lastOnline := now);
        job := job.(lastRegister := now);
      case Enable =>
        job := job.(status := Created);
        job := job.(lastOnline := now);
      case Disable =>
        job := job.(status := SyncStatus.Disabled);
        job := job.(lastOnline := now);
      case Stop =>
        job := job.(status := Paused);
        job := job.(lastOnline := now);
    }
  }

  // ---------------------------------------------------------------------
  // Histories
  // ---------------------------------------------------------------------

  datatype Event = Event(req: Request, now: int)

  /** The record after the first `n` requests of a history. */
  function After(h: seq<Event>, n: nat): JobStatus
    requires n <= |h|
  {
    if n == 0 then ZERO else Apply(After(h, n - 1), h[n - 1].req, h[n - 1].now)
  }

  /** Handling a history one request at a time. */
  method Replay(server: Server, h: seq<Event>)
    requires server.job == ZERO
    modifies server
    ensures server.job == After(h, |h|)
  {
    for n := 0 to |h|
      invariant server.job == After(h, n)
    {
      server.Handle(h[n].req, h[n].now);
    }
  }

  predicate Reports(e: Event, status: SyncStatus) {
    e.req.Update? && e.req.body.status == status
  }

  predicate Ends(e: Event) {
    Reports(e, Success) || Reports(e, Failed)
  }

  predicate SetsStatus(e: Event) {
    e.req.Update? || e.req.Enable? || e.req.Disable? || e.req.Stop?
  }

  function StatusSet(e: Event): SyncStatus
    requires SetsStatus(e)
  {
    match e.req
    case Update(body) => body.status
    case Enable => Created
    case Disable => SyncStatus.Disabled
    case Stop => Paused
  }

  /** Request `i` is the last of the first `n` that set the status. */
  ghost predicate LastSet(h: seq<Event>, i: int, n: nat)
    requires n <= |h|
  {
    0 <= i < n && SetsStatus(h[i]) && forall j | i < j < n :: !SetsStatus(h[j])
  }

  /** Request `k` reports PreSyncing, and the status set last before it was
      another one. */
  ghost predicate Starts(h: seq<Event>, k: int) {
    && 0 <= k < |h|
    && Reports(h[k], PreSyncing)
    && forall i | LastSet(h, i, k) :: StatusSet(h[i]) != PreSyncing
  }

  /** `v` is the value of the latest of the first `n` requests that `hit` picks, or
      0 if it picks none. */
  ghost predicate IsLatest(n: nat, hit: int -> bool, value: int -> int, v: int) {
    || (v == 0 && forall k | 0 <= k < n :: !hit(k))
    || exists k :: 0 <= k < n && hit(k) && v == value(k) && forall j | k < j < n :: !hit(j)
  }

  ghost predicate Clocked(h: seq<Event>, start: int) {
    && (forall k | 0 <= k < |h| :: start <= h[k].now)
    && forall i, j | 0 <= i < j < |h| :: h[i].now <= h[j].now
  }

  /** One more request moves the latest value exactly if it is picked. */
  lemma LatestStep(n: nat, hit: int -> bool, value: int -> int, v: int)
    requires IsLatest(n, hit, value, v)
    ensures IsLatest(n + 1, hit, value, if hit(n) then value(n) else v)
  {
    if hit(n) {
      assert forall j | n < j < n + 1 :: !hit(j);
    } else if exists k :: 0 <= k < n && hit(k) && v == value(k) && forall j | k < j < n :: !hit(j) {
      var k :| 0 <= k < n && hit(k) && v == value(k) && forall j | k < j < n :: !hit(j);
      assert forall j | k < j < n + 1 :: !hit(j);
    }
  }

  /** The status is the one set last. */
  lemma {:induction false} StatusIsLastSet(h: seq<Event>, n: nat)
    requires n <= |h|
    ensures forall i | LastSet(h, i, n) :: After(h, n).status == StatusSet(h[i])
    ensures (exists i :: LastSet(h, i, n)) || After(h, n).status == NoStatus
  {
    if 0 < n {
      var m := n - 1;
      StatusIsLastSet(h, m);
      if SetsStatus(h[m]) {
        assert LastSet(h, m, n);
      } else {
        forall i ensures LastSet(h, i, n) <==> LastSet(h, i, m) {
        }
        if exists i :: LastSet(h, i, m) {
          var i :| LastSet(h, i, m);
          assert LastSet(h, i, n);
        }
      }
    }
  }

  lemma StartsIff(h: seq<Event>, k: nat)
    requires k < |h|
    ensures Starts(h, k) <==> Reports(h[k], PreSyncing) && After(h, k).status != PreSyncing
  {
    StatusIsLastSet(h, k);
  }

  /** A field that moves exactly on the picked requests is their latest. */
  lemma {:induction false} FieldIsLatest(h: seq<Event>, n: nat, hit: int -> bool, value: int -> int,
                                         field: JobStatus -> int)
    requires n <= |h| && field(ZERO) == 0
    requires forall m: nat {:trigger After(h, m + 1)} | m < |h| ::
               field(After(h, m + 1)) == if hit(m) then value(m) else field(After(h, m))
    ensures IsLatest(n, hit, value, field(After(h, n)))
  {
    if n == 0 {
      assert After(h, 0) == ZERO;
    } else {
      var m := n - 1;
      FieldIsLatest(h, m, hit, value, field);
      LatestStep(m, hit, value, field(After(h, m)));
      assert field(After(h, m + 1)) == if hit(m) then value(m) else field(After(h, m));
    }
  }

  ghost function Successes(h: seq<Event>): int -> bool { k => 0 <= k < |h| && Reports(h[k], Success) }
  ghost function Endings(h: seq<Event>): int -> bool { k => 0 <= k < |h| && Ends(h[k]) }
  ghost function Startings(h: seq<Event>): int -> bool { k => Starts(h, k) }
  ghost function Registrations(h: seq<Event>): int -> bool { k => 0 <= k < |h| && h[k].req.Register? }
  ghost function Contacts(h: seq<Event>): int -> bool { k => 0 <= k < |h| && !h[k].req.UpdateSize? }
  ghost function Times(h: seq<Event>): int -> int { k => if 0 <= k < |h| then h[k].now else 0 }

  /** The record's timestamps are its history: for every sequence of requests,
      LastUpdate is the time of the latest reported success, LastEnded of the
      latest success or failure, LastStarted of the latest PreSyncing entered
      from another status, LastRegister of the latest registration, LastOnline of
      the latest request that is not about the size. */
  lemma Timeline(h: seq<Event>, n: nat)
    requires n <= |h|
    ensures IsLatest(n, Successes(h), Times(h), After(h, n).lastUpdate)
    ensures IsLatest(n, Endings(h), Times(h), After(h, n).lastEnded)
    ensures IsLatest(n, Startings(h), Times(h), After(h, n).lastStarted)
    ensures IsLatest(n, Registrations(h), Times(h), After(h, n).lastRegister)
    ensures IsLatest(n, Contacts(h), Times(h), After(h, n).lastOnline)
  {
    hide IsLatest, Starts;
    forall m: nat | m < |h| ensures Startings(h)(m) <==> Reports(h[m], PreSyncing) && After(h, m).status != PreSyncing {
      StartsIff(h, m);
    }
    FieldIsLatest(h, n, Successes(h), Times(h), (s: JobStatus) => s.lastUpdate);
    FieldIsLatest(h, n, Endings(h), Times(h), (s: JobStatus) => s.lastEnded);
    FieldIsLatest(h, n, Startings(h), Times(h), (s: JobStatus) => s.lastStarted);
    FieldIsLatest(h, n, Registrations(h), Times(h), (s: JobStatus) => s.lastRegister);
    FieldIsLatest(h, n, Contacts(h), Times(h), (s: JobStatus) => s.lastOnline);
  }

  /** A status report with a size, or a report of the size, whatever it is. */
  ghost function Sizings(h: seq<Event>): int -> bool {
    k => 0 <= k < |h| && (h[k].req.UpdateSize? || (h[k].req.Update? && h[k].req.body.size != 0))
  }

  ghost function Sizes(h: seq<Event>): int -> int {
    k => if !(0 <= k < |h|) then 0
         else match h[k].req { case UpdateSize(size) => size case Update(body) => body.size case _ => 0 }
  }

  ghost function Schedulings(h: seq<Event>): int -> bool {
    k => 0 <= k < |h| && (h[k].req.UpdateSchedule? || h[k].req.Update?)
  }

  ghost function Schedules(h: seq<Event>): int -> int {
    k => if !(0 <= k < |h|) then 0
         else match h[k].req { case UpdateSchedule(next) => next case Update(body) => body.scheduled case _ => 0 }
  }

  /** The size is the latest one reported, where a status report without one does
      not count, and the schedule is the latest one reported, where it does. */
  lemma SizeAndSchedule(h: seq<Event>, n: nat)
    requires n <= |h|
    ensures IsLatest(n, Sizings(h), Sizes(h), After(h, n).size)
    ensures IsLatest(n, Schedulings(h), Schedules(h), After(h, n).scheduled)
  {
    hide IsLatest;
    FieldIsLatest(h, n, Sizings(h), Sizes(h), (s: JobStatus) => s.size);
    FieldIsLatest(h, n, Schedulings(h), Schedules(h), (s: JobStatus) => s.scheduled);
  }

  /** Under a clock that does not run backwards, a job's last success is no
      later than its last end, and neither is in the future. */
  lemma {:induction false} TimelineOrdered(h: seq<Event>, n: nat, now: int)
    requires n <= |h| && Clocked(h, 0) && 0 <= now && forall k | 0 <= k < n :: h[k].now <= now
    ensures var s := After(h, n);
            0 <= s.lastUpdate <= s.lastEnded <= now && 0 <= s.lastStarted <= now
  {
    if 0 < n {
      TimelineOrdered(h, n - 1, h[n - 1].now);
    }
  }
}
