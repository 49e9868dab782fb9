/** The vocabulary shared by the worker and the manager: sync statuses, job
    states, control actions and the messages a sync run reports.
    Models worker/job.go and api/v1beta1/job_types.go.
 */
module JobTypes {

  /** A mirror's sync status, as stored by the manager. */
  datatype SyncStatus =
    | NoStatus | Failed | Success | Syncing | PreSyncing | Paused | Disabled | Cached | Created

  /** The atomic `state` field of a mirror job. */
  datatype JobState = StateNone | StateReady | StatePaused | StateDisabled | StateHalting

  /** What travels through a job's control channel. */
  datatype Ctrl = JobStart | JobStop | JobDisable | JobRestart | JobPing | JobHalt | JobForceStart

  /** What travels through the manager channel; the error text is left out. */
  datatype JobMessage = JobMessage(status: SyncStatus, schedule: bool)

  /** The control actions that make an idle control loop start a sync run. */
  predicate StartsRun(c: Ctrl) {
    c == JobStart || c == JobRestart || c == JobForceStart
  }

  datatype Option<+T> = None | Some(value: T)
}
