/** The one-cell schedule queue and its non-reentrant mutex.
    Models worker/schedule.go.
 */
module Schedule {
  import opened JobTypes

  const SECOND := 1_000_000_000

  /** The cell: whether a sync is scheduled, and for which Unix second. */
  datatype Slot = Slot(sched: bool, nextScheduled: int)

  const EMPTY := Slot(false, 0)

  /** None is the self-deadlock: on an occupied cell `AddJob` calls `Remove`,
      which locks the mutex `AddJob` already holds. */
  function Add(q: Slot, t: int): Option<Slot> {
    if q.sched then None else Some(Slot(true, t))
  }

  /** `now` is in nanoseconds, as the comparison with the clock is. */
  predicate Due(q: Slot, now: int) {
    q.sched && q.nextScheduled * SECOND < now
  }

  function Pop(q: Slot, now: int): Slot {
    if Due(q, now) then q.(sched := false) else q
  }

  function Remove(q: Slot): Slot {
    q.(sched := false)
  }

  /** What the worker reports to the manager: 0 when nothing is scheduled. */
  function Get(q: Slot): int {
    if q.sched then q.nextScheduled else 0
  }

  /** The object itself. `locked` is the mutex as another goroutine sees it
      between two calls. */
  class Queue {
    var locked: bool
    var sched: bool
    var nextScheduled: int

    function Value(): Slot
      reads this
    {
      Slot(sched, nextScheduled)
    }

    constructor ()
      ensures Value() == EMPTY && !locked
    {
      locked, sched, nextScheduled := false, false, 0;
    }

    /** Returns whether the call came back; if not, the mutex is held for good. */
    method AddJob(t: int) returns (returned: bool)
      requires !locked
      modifies this
      ensures returned == !old(sched) == !locked
      ensures Add(old(Value()), t) == if returned then Some(Value()) else None
      ensures !returned ==> Value() == old(Value())
    {
      locked := true;
      if sched {
        return false;
      }
      sched := true;
      nextScheduled := t;
      locked := false;
      return true;
    }

    method PopJob(now: int) returns (popped: bool)
      requires !locked
      modifies this
      ensures !locked && popped == Due(old(Value()), now) && Value() == Pop(old(Value()), now)
    {
      if !sched {
        return false;
      }
      if nextScheduled * SECOND < now {
        sched := false;
        return true;
      }
      return false;
    }

    method RemoveJob()
      requires !locked
      modifies this
      ensures !locked && Value() == Remove(old(Value()))
    {
      sched := false;
    }

    method GetJob() returns (next: int)
      ensures next == Get(Value())
    {
      next := 0;
      if sched {
        next := nextScheduled;
      }
    }
  }

  // ---------------------------------------------------------------------
  // Whole histories of the cell
  // ---------------------------------------------------------------------

  datatype Op = AddOp(t: int) | PopOp(now: int) | RemoveOp

  function Apply(q: Slot, op: Op): Option<Slot> {
    match op
    case AddOp(t) => Add(q, t)
    case PopOp(now) => Some(Pop(q, now))
    case RemoveOp => Some(Remove(q))
  }

  /** The cell after the first `k` operations; None once `AddJob` got stuck. */
  function After(ops: seq<Op>, k: nat): Option<Slot>
    requires k <= |ops|
  {
    if k == 0 then Some(EMPTY)
    else
      var q := After(ops, k - 1);
      if q.None? then None else Apply(q.value, ops[k - 1])
  }

  /** Operation `k` is a `Pop` that hands a job out. */
  predicate Pops(ops: seq<Op>, k: nat)
    requires k < |ops|
  {
    ops[k].PopOp? && After(ops, k).Some? && Due(After(ops, k).value, ops[k].now)
  }

  /** The job added by operation `i` is neither removed nor handed out before `k`. */
  ghost predicate Waiting(ops: seq<Op>, i: int, k: nat)
    requires k <= |ops|
  {
    && 0 <= i < k
    && ops[i].AddOp?
    && forall j | i < j < k :: !ops[j].RemoveOp? && !Pops(ops, j)
  }

  lemma {:induction false} CellIsWaitingJob(ops: seq<Op>, k: nat)
    requires k <= |ops| && After(ops, k).Some?
    ensures var q := After(ops, k).value;
            && (forall i | Waiting(ops, i, k) :: q.sched && q.nextScheduled == ops[i].t)
            && (q.sched ==> exists i :: Waiting(ops, i, k))
            && (forall i, j | Waiting(ops, i, k) && Waiting(ops, j, k) :: i == j)
            && (forall i | Waiting(ops, i, k) :: Get(q) == ops[i].t)
            && ((forall i :: !Waiting(ops, i, k)) ==> Get(q) == 0)
  {
    if 0 < k {
      CellIsWaitingJob(ops, k - 1);
      var before := After(ops, k - 1).value;
      forall i | Waiting(ops, i, k)
        ensures i == k - 1 || Waiting(ops, i, k - 1)
      {
      }
      if After(ops, k).value.sched {
        if ops[k - 1].AddOp? {
          assert Waiting(ops, k - 1, k);
        } else {
          var i :| Waiting(ops, i, k - 1);
          assert Waiting(ops, i, k);
        }
      }
    }
  }

  /** Operation `j` adds a job while another one waits. */
  ghost predicate AddsTwice(ops: seq<Op>, j: nat, k: nat)
    requires k <= |ops|
  {
    j < k && ops[j].AddOp? && exists i :: Waiting(ops, i, j)
  }

  /** A history gets stuck exactly at the first `AddJob` that finds a job waiting. */
  lemma {:induction false} StuckIff(ops: seq<Op>, k: nat)
    requires k <= |ops|
    ensures After(ops, k).None? <==> exists j: nat :: AddsTwice(ops, j, k) && After(ops, j).Some?
  {
    if 0 < k {
      StuckIff(ops, k - 1);
      if After(ops, k - 1).None? {
        var j: nat :| AddsTwice(ops, j, k - 1) && After(ops, j).Some?;
        assert AddsTwice(ops, j, k);
      } else {
        CellIsWaitingJob(ops, k - 1);
        assert After(ops, k).None? <==> AddsTwice(ops, k - 1, k);
        forall j: nat | AddsTwice(ops, j, k) && After(ops, j).Some? ensures j == k - 1 {
          assert j < k - 1 ==> AddsTwice(ops, j, k - 1);
        }
      }
    }
  }

  /** In any history without a stuck call, `Pop` hands out a job exactly when
      one added earlier has come strictly past its time and was neither removed
      nor handed out in between; no job is handed out twice. */
  lemma PopExactly(ops: seq<Op>, k: nat)
    requires k < |ops| && ops[k].PopOp? && After(ops, k).Some?
    ensures Pops(ops, k) <==> exists i :: Waiting(ops, i, k) && ops[i].t * 1_000_000_000 < ops[k].now
    ensures forall i, l | Pops(ops, k) && Waiting(ops, i, k) && k < l <= |ops| :: !Waiting(ops, i, l)
  {
    CellIsWaitingJob(ops, k);
    if Pops(ops, k) {
      var i :| Waiting(ops, i, k);
      assert ops[i].t * SECOND < ops[k].now;
    }
  }
}
