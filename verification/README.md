# kubesync: the sync worker, its manager and its conda mirror script

A kubesync worker keeps one mirror up to date. A control loop obeys commands
from its manager, runs syncs with hooks and retries under a concurrency limit,
and reports every change of status; a schedule of a single cell starts the next
sync; the manager folds the reports into a record with timestamps, and publishes
it as a MirrorZ status string. This project models that machinery in Dafny and
proves what holds of it in every interleaving and for every input.

| module | what it models |
|---|---|
| `Wrapper`, `Story` | one sync run (`runJobWrapper`): hooks, retries, the two selects, the language of messages it reports, and what each message says about what happened |
| `Protocol` | the whole worker as a labelled transition system: any number of control loops, every `runJob` goroutine they spawn, `runSchedule` with its start-up block, the command handler and `Halt`, from before start-up on; each channel operation, select arm, atomic access and locked call is one step |
| `Safety` | concurrency limit, quiescence, exactly-once signalling |
| `Commands`, `Orders` | from a request to the control action it sends, and from the action to the state, the kills and the runs it leads to, over whole interleavings |
| `Blocking` | exactly when each goroutine is blocked, and how the worker crashes or shuts down |
| `Launches` | how many control loops there can be |
| `Activation`, `Forced`, `Deadlock` | conservation of activation tokens, and exactly when `AddJob` deadlocks on its own mutex |
| `Halting`, `HaltHang`, `Startup` | exactly when a sync can run after `Halt`, when `Halt` waits for ever, and when commands before start-up block it |
| `Overlap` | exactly when two sync runs can overlap, and what the order of hook calls and messages is when they cannot |
| `Schedule` | the schedule cell as a class, and whole histories of it |
| `Process`, `Lifecycle` | a provider's OS processes under concurrent `Run`, `Wait` and `Terminate` calls; why calls fail, and that they all end |
| `Layers`, `Hooks` | the layered context on the heap, and what hooks do to it over whole runs |
| `Shared`, `Joint` | the same context as goroutines load and store it without a lock, alone and together with the whole worker |
| `Retention` | the log limiter's housekeeping in the log directory |
| `Manager`, `Delivery`, `MirrorZ` | the manager's record against its history, a run's messages delivered into it, and the string printed from it |
| `Size` | printing and reading sizes |
| `Conda` | `sync_repo` of the conda mirror script |
| `JobTypes`, `Sums`, `Decimal` | shared types and helpers |

Choices of the environment (which goroutine moves, hook and provider outcomes,
timeouts, clocks, what a download brings) are labels or parameters, and every
theorem is for all of them. `Interleave(s, ls)` is the state after the steps
`ls`, or `None` if one of them is not enabled; a theorem about
`Interleave(Boot(...), ls)` is a theorem about every reachable state.

Where the code does not meet what one would expect of it, the model follows the
code, and the theorem says exactly when the expectation holds:

- `AddJob` on an occupied cell calls `Remove`, which locks the mutex `AddJob`
  holds (worker/schedule.go:30-34). The worker can get there if and only if
  start-up and the accepted start and restart commands grant two tokens, where
  the schedule of start-up is one; without semaphore slots it is one only if a
  command may come before start-up (`Deadlock.DeadlockIff`).
- Two quick start commands to a disabled job launch two loops, which then hold
  a token no command granted. The sharp token bound can be exceeded if and only
  if two start or restart commands are accepted and the job starts up disabled
  or is told to disable itself (`Deadlock.SharpBoundIff`).
- `Halt` waits for a wait group that a launched loop joins only with its first
  statement, so a sync can start after `Halt`; under the commands worker.go
  sends, if and only if the job starts up disabled (`Halting.HaltRaceIff`).
- Two sync runs of one job can be active at once if and only if the job starts
  up disabled and gets two start or restart commands (`Overlap.OverlapIff`).
  Then one attempt can write to the other's log file and the shared context can
  become nil (`Joint.ContextIff`), two runs' requests to be scheduled can
  deadlock (`Delivery.OverlapDeadlocks`), more than ten logs can be left
  (`Retention.TwoAtOnce`), and a `Halt` can wait for ever
  (`HaltHang.HaltHangIff`). Otherwise hook calls and messages come one run after
  the other (`Overlap.RunsInTurn`, `Overlap.MessagesInTurn`), which is what
  `Hooks`, `Delivery` and `Retention` start from.
- The HTTP server accepts commands before `runSchedule` takes the worker's lock
  (worker/worker.go:59, 164). Two requests in that window block start-up for
  ever, and fewer never do (`Startup.HangIff`, `Startup.StartsIff`).
- A provider that returns nil before it signals its start makes the run panic
  (worker/job.go:165-166), and nothing else does (`Story.CrashIff`).
- A hook that fails, or a failing `Terminate`, leaves a context layer behind;
  `Hooks.Provider.RunJob` says when.
- A size of one digit does not read back (`Size.PrintedSizes`).
- `latest` counts as a log of a mirror whose name is one of its prefixes, and
  the limit of ten logs fails for exactly those names when attempts do not
  overlap (`Retention.LogDir.Attempts`, `Retention.ElevenLogs`).
- While a conda package changes its size under its name, the published index
  names a file that is not there (`Conda.Mirror.SyncRepo`).

## Model

| member | source | states |
|---|---|---|
| `Wrapper.StepKeepsShape` | worker/job.go:106-240 | every step of a sync run keeps what it has reported a prefix of the message language fitting the place it stands at, and a message that asks to be scheduled uses up the run's only right to ask |
| `Wrapper.ExecConcat` | worker/job.go:124-240 | executing two sequences of choices one after the other is executing their concatenation, with the messages appended |
| `Wrapper.TraceSound` | worker/job.go:124-240 | for every retry count and every hook, provider, timeout and kill outcome, a completed run has reported a word of one regular language: PreSyncing, fewer than Retry failed blocks, one tail |
| `Wrapper.TraceComplete` | worker/job.go:124-240 | every word of that language is reported by some run, so the language is exact |
| `Wrapper.LanguageFacts` | worker/job.go:124-240 | PreSyncing comes first and once, every other message is Syncing, Failed or Success, Success and a request to be scheduled come only last, and a run sends at most max(2, 1 + 2 * Retry) messages |
| `Story.StoryRuns` | worker/job.go:124-240 | for every story of a run, told attempt by attempt (each stage's hooks, a provider failing before it started, its end by itself, timeout or kill, a failing `Terminate`, the job ready or not), the run exists and reports exactly the story's messages |
| `Story.RunHasStory` | worker/job.go:124-240 | every completed run has such a story, with its choices and its messages; so what happened determines what is reported |
| `Story.SuccessIff` | worker/job.go:178-226 | a completed run reports Success exactly if a sync succeeded and no hook failed, then last, and asks to be scheduled exactly if the job was ready |
| `Story.KillEnds` | worker/job.go:185-236 | a kill ends the run: at once if `Terminate` fails, else with one more message, a failure, and no further attempt |
| `Story.Exhausted` | worker/job.go:142-238 | a run whose hooks succeed, whose syncs all fail, that is not killed and whose timeouts terminate the provider makes exactly Retry attempts |
| `Story.CrashIff` | worker/job.go:164-170 | a run panics exactly when its provider returns nil before it has started, in any attempt, having reported exactly the failed attempts before it and Syncing |
| `Protocol.BootInv` | worker/worker.go:57-61 | the invariant holds of a new worker, when the HTTP server may run and `runSchedule` has not taken the lock, whatever status it is going to fetch |
| `Protocol.NextInv` | worker/job.go:242-327 | every step of every goroutine, start-up included, keeps the invariant: per-run signalling and slots, one unfinished run per loop, the semaphore's length, the wait group's count, and no loop and an empty cell before start-up gets to them |
| `Protocol.InterleaveInv` | worker/job.go:95-328 | the invariant holds after every interleaving |
| `Safety.ConcurrencyLimit` | worker/job.go:242-263 | for any number of loops on one semaphore: slots held are its length and at most its capacity, each loop has at most one active wrapper, active wrappers exceed the capacity only by bypassed ones, and bypassed runs and unspent bypass tokens of a loop are at most the force-start commands it received |
| `Safety.Quiescence` | worker/job.go:256-327 | without the `jobPing` action, which worker.go never sends, a loop at rest or returned has no active wrapper, every active wrapper belongs to a loop in the wait group, and a zero count means no sync is running |
| `Safety.SignalsOnce` | worker/job.go:124-125 | every `runJob` goroutine ever spawned has its `kill` closed at most once and signals `jobDone` exactly once, when it is over; one that closed it has reported a word of the language, one that sent on it was killed before it reported anything |
| `Safety.OneLoop` | worker/worker.go:102-127 | a worker started enabled and sent no `jobDisable` has exactly one control loop from start-up on, for ever, and is never disabled |
| `Commands.CtrlHistory` | worker/worker.go:102-133 | in every interleaving what was sent on the control channel is what the loops received, followed by what is in the channel, in order |
| `Commands.EveryRequest` | worker/worker.go:63-133 | in every interleaving the handlers have sent exactly the actions their requests are for, in order: (forced) start, restart, stop and halt, the last two unless the job was found disabled, nothing for a ping or an invalid command; and launched a loop exactly for each start and restart that found the job disabled |
| `Commands.EveryDue` | worker/worker.go:221-225 | in every interleaving `runSchedule` sends exactly one `jobStart` each time a tick finds the job due, which empties the cell, and nothing else |
| `Commands.EveryFill` | worker/worker.go:193-216 | in every interleaving `runSchedule` fills the cell exactly once for each message that asks to be scheduled and passes the gate (the first load of the state finds ready, or the second halting), but for the one it is about to, or stuck on |
| `Orders.EveryOrder` | worker/job.go:256-327 | for every loop in every interleaving: one run per check that found the job ready; when ready for its next command, one check at its beginning and one per order that calls for it (a restart during a run, any order that does not quit without one), a run in progress exactly if one is not done, no order to quit; a loop that returned was told to; and `kill` of each run closed exactly for the killing orders received during it |
| `Orders.KilledInTurn` | worker/job.go:268-283 | from every reachable state in which a loop holds an order received during a run, in every continuation in which it hears nothing else and gets ready again: the run is killed; after a restart the state was checked once and one run spawned exactly if the check found ready; after a stop nothing was checked or spawned |
| `Orders.EveryRunOrdered` | worker/job.go:256-327 | in every interleaving outside the overlap condition: when the loop is ready for its next command the state is the one ordered last, or the one start-up stored, and the loop has spawned exactly one run per start or restart received without a run and per restart received during one |
| `Orders.EveryArm` | worker/job.go:242-254 | in every interleaving a run is killed only after an order received during it, goes ahead without a slot only after a force start and needs a free one otherwise, and reads the state as it is |
| `Blocking.BlockedIff` | worker/job.go:242-327 | in every reachable state each goroutine that has not ended is blocked exactly for its listed reason: a run for a slot, for room among 32 messages, or by a loop that returned on `jobPing`; a loop for a command or for the end of its run; `runSchedule` for the lock, for room in the control channel, or stuck in `AddJob`; a handler for a stuck schedule, for that room, or for the wait group |
| `Blocking.Ends` | worker/worker.go:63-74 | in every interleaving `exit` is closed exactly if a `Halt` has passed its wait and gone on, the worker has crashed exactly if a run panicked or `exit` was closed twice, and `runSchedule` leaves only after `exit` |
| `Launches.NextOrderly` | worker/worker.go:102-116 | every step keeps the launch count: loops and start or restart commands that may still launch one never outnumber the commands accepted and the loop of an enabled start-up; and with at most one such command that loop is on its way out before another is launched |
| `Launches.LaunchBound` | worker/worker.go:102-116 | in every interleaving, whatever is injected, there are at most as many loops as accepted start and restart commands, and one more if the job starts up enabled |
| `Activation.NextTokens` | worker/worker.go:102-225 | no step of any goroutine makes an activation token (start-up's schedule, occupied cell, queued start, run that may still ask, message that asks, and those in between) without a grant |
| `Activation.TokenBound` | worker/worker.go:163-225 | in every interleaving the tokens are at most the start-up grant plus the accepted start and restart commands, if the job starts up enabled and is told no `jobDisable`, or at most one such command was accepted, or only one loop was launched; and at most that plus stop commands plus loops in general |
| `Activation.StuckAtAddJob` | worker/schedule.go:29-40 | a stuck worker stands at an `AddJob` on an occupied cell |
| `Activation.NoSelfDeadlock` | worker/worker.go:191-225 | with at most one token granted by start-up and commands, `AddJob` never meets an occupied cell, whatever stop, ping, halt and disable requests arrive |
| `Activation.NoStartNoDeadlock` | worker/worker.go:191-225 | without a start or restart command the worker never deadlocks in `AddJob`, whatever start-up found and whatever is injected |
| `Forced.NextBounded` | worker/job.go:242-254 | without semaphore slots every step keeps the bound on force-start commands on their way and the requests to be scheduled made of them, unless it accepts a start or restart command before start-up; a later first command flushes the cell start-up filled |
| `Forced.NoDeadlockWithoutSlots` | worker/worker.go:43 | without semaphore slots, one accepted start or restart command never deadlocks the worker, whatever start-up scheduled and however many loops there are, unless it was accepted before start-up |
| `Deadlock.EarlyDeadlock` | worker/worker.go:57-61 | a force start handled before start-up, for every capacity: its run asks to be scheduled while start-up's entry is still in the cell, and one accepted command deadlocks |
| `Deadlock.TwoTokensDeadlock` | worker/worker.go:86-133 | for every capacity, retry count and start-up status there is an interleaving with two tokens and one loop that deadlocks in `AddJob`; without slots the runs are forced |
| `Deadlock.DeadlockIff` | worker/schedule.go:29-40 | for every capacity and status, with at most n accepted start and restart commands and anything else, a deadlock is reachable if and only if they and start-up grant two tokens; start-up's schedule is one, except that without slots it is one only if commands may come before start-up |
| `Deadlock.UngrantedToken` | worker/worker.go:102-116 | two quick start commands to a disabled job, started up so or told so, yield two loops with a run each and a command still queued: three tokens out of two grants |
| `Deadlock.SharpBoundIff` | worker/worker.go:102-116 | with at most n accepted start and restart commands the sharp token bound can be exceeded if and only if 2 <= n and the job starts up disabled, or a `jobDisable` may be injected |
| `Halting.NextHalt` | worker/worker.go:63-74 | every step keeps, of an enabled job: a `Halt` that is about to pass or has passed finds the only loop returned, or has left its command first in the channel for it |
| `Halting.HaltIsFinal` | worker/worker.go:63-74 | a job that starts up enabled and is sent only what worker.go sends has no active wrapper once `Halt` has passed its wait, and none ever after, even if the halt came before start-up |
| `Halting.HaltRace` | worker/worker.go:63-74 | for a job that starts up disabled, or is told to disable itself, there is an interleaving in which `Halt` has closed `exit` and a sync is active afterwards |
| `Halting.HaltRaceIff` | worker/worker.go:63-74 | a sync can be active after `Halt` if and only if the job starts up disabled, or an action worker.go never sends may be injected |
| `HaltHang.StaysHung` | worker/worker.go:63-74 | a `Halt` that waits with fewer halt commands in the channel than control loops left to take one does so for ever, with the worker's lock, whatever happens but an injected action |
| `HaltHang.TwoLoopsHang` | worker/worker.go:63-74 | from every reachable state in which a first `Halt` waits for two control loops, under the commands worker.go sends, no continuation passes the wait and `exit` is never closed |
| `HaltHang.HaltTwo` | worker/worker.go:102-116 | two force starts to a disabled job and a `Halt`: it waits for two loops |
| `HaltHang.HaltHangIff` | worker/worker.go:63-74 | with at most n accepted start and restart commands a first `Halt` can come to wait for two loops if and only if the job starts up disabled and 2 <= n |
| `Overlap.TwoSyncing` | worker/worker.go:102-116 | for every capacity, two force starts to a disabled job lead to two control loops that are both inside `runJobWrapper` |
| `Overlap.OverlapIff` | worker/job.go:242-263 | for every capacity and without an injected `jobDisable`: with at most n accepted start and restart commands two wrappers can be active at once if and only if the job starts up disabled and 2 <= n |
| `Overlap.RunsInTurn` | worker/job.go:242-263 | in every interleaving outside that condition all wrapper steps, and so all hook calls, are those of one run after the other |
| `Overlap.ChannelHistory` | worker/worker.go:191-225 | in every interleaving what was sent on the manager channel is what `runSchedule` received, followed by what is in the channel, in order |
| `Overlap.MessagesInTurn` | worker/worker.go:191-225 | in every interleaving outside that condition what `runSchedule` received, followed by what is in the channel, is the concatenation of the runs' reports in the order the runs were spawned, and every run but the newest reported a whole word of the language or nothing |
| `Startup.StaysBlocked` | worker/worker.go:163-164 | start-up waiting for a lock whose holder waits for room in the control channel does so for ever |
| `Startup.StartsIff` | worker/worker.go:163-164 | in every reachable state before start-up, start-up can still happen if and only if it is not blocked so |
| `Startup.TwoTooEarly` | worker/worker.go:86-133 | two start commands before start-up block it |
| `Startup.HangIff` | worker/worker.go:57-61 | start-up can be blocked with at most n requests that use the control channel if and only if 2 <= n |
| `Schedule.Queue.constructor` | worker/schedule.go:17-20 | a new cell is empty and unlocked |
| `Schedule.Queue.AddJob` | worker/schedule.go:29-40 | comes back, with the cell filled, exactly if it was empty; otherwise the mutex stays locked and the cell unchanged |
| `Schedule.Queue.PopJob` | worker/schedule.go:43-59 | hands a job out exactly if one is scheduled strictly before now, and then empties the cell |
| `Schedule.Queue.RemoveJob` | worker/schedule.go:62-67 | empties the cell |
| `Schedule.Queue.GetJob` | worker/schedule.go:22-27 | the scheduled time, or 0 |
| `Schedule.CellIsWaitingJob` | worker/schedule.go:22-67 | in every history the cell is occupied exactly if a job was added and neither removed nor handed out since, there is at most one such job, and the cell holds and reports its time, or 0 if there is none |
| `Schedule.PopExactly` | worker/schedule.go:43-59 | in every history `Pop` hands out a job if and only if one waits whose time is strictly past, and never the same one again |
| `Schedule.StuckIff` | worker/schedule.go:29-40 | a history gets stuck exactly at the first `AddJob` that finds a job waiting |
| `Process.Reachable` | worker/rsync_provider.go:103-147 | the invariant of provider lock, running flag, commands and calls holds after every interleaving of any number of `Run`, `cmdJob.Wait` and `Terminate` calls and process exits; `baseProvider.Wait`, which also lowers the flag, is modelled where it is called, in `Run` |
| `Process.OneProcess` | worker/rsync_provider.go:103-147 | in every interleaving at most one process exists that has not been waited for; it is the provider's current command, and the running flag is up or its starter still holds the lock and is about to raise it |
| `Process.TerminateLeavesNone` | worker/base_provider.go:153-165 | when `Terminate` is about to return nil, every command of the provider was never started, is reaped, or was sent SIGKILL |
| `Process.WaitsAgree` | worker/runner.go:73-86 | all waits on one command that returned have the same error, the one its process exited with, and `finished` was closed once |
| `Process.ClosedAtMostOnce` | worker/runner.go:73-86 | no interleaving closes a command's `finished` twice |
| `Lifecycle.RunningIff` | worker/base_provider.go:144-150 | in every interleaving the running flag is up exactly while a `Run` that raised it and has not lowered it answers for the provider's command, so a `Run` is refused only while another is under way |
| `Lifecycle.FailsIff` | worker/rsync_provider.go:125-147 | in every interleaving a call fails exactly if it met its reason: a `Run` that found the flag up, or could not open its log or start its process; a `Terminate` whose process was not started or already waited for |
| `Lifecycle.KilledIff` | worker/runner.go:93-110 | a process is sent SIGKILL exactly if some `Terminate` ran out of its two seconds on it |
| `Lifecycle.Ends` | worker/rsync_provider.go:103-147 | from every state, an interleaving without new calls has at most as many steps as there is work, whatever the order |
| `Lifecycle.SomeoneMoves` | worker/runner.go:73-110 | no deadlock: in every reachable state with an unfinished call, some call has a step to take or a process it waits for can exit |
| `Lifecycle.AtTheEnd` | worker/base_provider.go:144-165 | when nothing but a new call can happen, all calls have returned, the lock is free, the flag down and no process left |
| `Lifecycle.RunsAgain` | worker/rsync_provider.go:125-147 | from every reachable state in which all calls have returned a further `Run` can start a process |
| `Layers.Context.constructor` | worker/context.go:17-22 | a new context is a stack of one empty layer |
| `Layers.Context.Above` | worker/context.go:25-32 | a layer made above another is that stack with an empty layer on top |
| `Layers.Context.Enter` | worker/context.go:25-32 | a fresh, empty layer on top of the unchanged stack |
| `Layers.Context.Exit` | worker/context.go:35-40 | the stack without its top, or the error exactly at the bottom |
| `Layers.Context.Get` | worker/context.go:45-56 | the recursive lookup through the linked layers finds what the flattened overlay of all maps shows |
| `Layers.Context.Set` | worker/context.go:59-61 | changes the top layer at one key and no layer below; a lookup of that key then finds the value, and of any other what it found before |
| `Layers.Bracket` | worker/context.go:7-10 | entering, any sequence of sets, and leaving restores the context and every lookup |
| `Hooks.NewHooks` | worker/provider.go:152-183 | the log limiter is the first hook and the only one of its kind, followed by the snapshot hooks and the commands in the order configured |
| `Hooks.StackShows` | worker/base_provider.go:61-86 | in every stack the hooks can build the two directories show as configured and the log file is a log, not the null device |
| `Hooks.SameAttempt` | worker/job.go:142-237 | the hooks' view of an attempt agrees with what the run reports of it: retried here exactly if there, and its layer popped exactly if it gets to report its sync |
| `Hooks.Provider.constructor` | worker/rsync_provider.go:88-92 | a new provider has one layer with its two directories and its log file |
| `Hooks.Provider.NoPanic` | worker/base_provider.go:61-86 | with runs one after the other, the three lookups never panic and the directories are the configured ones; with loads and stores interleaved, `Joint.ContextIff` says exactly when the context can become nil |
| `Hooks.Provider.EnterContext` | worker/base_provider.go:34-37 | an empty layer is pushed, as one step; its load, store and second load are separate steps in `Shared` |
| `Hooks.Provider.ExitContext` | worker/base_provider.go:39-42 | the context becomes the parent, as one step; its load and store are separate steps in `Shared` |
| `Hooks.Provider.LimiterPreExec` | worker/loglimit_hook.go:33-91 | pushes one layer, which holds the attempt's log file, exactly if the log directory can be read |
| `Hooks.Provider.RunPreExec` | worker/job.go:142-151 | with no other run active (exactly when: `Overlap.OverlapIff`): calls the hooks in order up to the first that fails, fails exactly if one does, and the limiter's layer is pushed exactly if the limiter succeeded; during the attempt the log file is the mirror's for that minute, in the log directory |
| `Hooks.Provider.RunPost` | worker/job.go:196-220 | calls the hooks in reverse order up to the first that fails, fails exactly if one does; the layer is popped exactly after a full success or failure stage |
| `Hooks.Provider.Attempt` | worker/job.go:142-237 | an attempt leaves its layer behind exactly if it pushed it and never reached the limiter's post hook, and may be retried exactly after a reported failure that was no kill |
| `Hooks.Provider.RunJob` | worker/job.go:130-239 | a run leaves the context as it was, or with exactly one layer more; the latter if and only if some attempt is reached, pushes and never pops |
| `Hooks.Provider.RunJobs` | worker/job.go:130-239 | over any number of runs, one after the other (exactly when: `Overlap.OverlapIff`), the depth grows by exactly the number of runs that leave a layer behind, the old layers stay below untouched, and the directories stay constant |
| `Shared.StepOrderly` | worker/base_provider.go:34-42 | with at most one attempt under way, every load, store and lookup keeps the context a stack over the bottom layer and does not panic |
| `Shared.TakingTurns` | worker/base_provider.go:34-86 | over every history of attempts that take turns, load by load and store by store: no lookup panics, the directories are the configured ones, a running attempt sees its own log file, and above the bottom layer are exactly as many layers as attempts were cut short before the limiter's post hook, and the current one |
| `Shared.LostUpdates` | worker/base_provider.go:34-42 | of two attempts that loaded the same context, the second to store loses the other's new layer, or takes back nothing |
| `Shared.OverlapMatters` | worker/base_provider.go:34-86 | an attempt that sees another's log file, a nil context, and a panic on it are each reachable if and only if attempts may overlap |
| `Joint.Projects` | worker/job.go:130-240 | the worker with its context makes only steps the worker makes alone |
| `Joint.NextJoint` | worker/job.go:142-220 | with at most one control loop every step of the worker and of the hooks' loads and stores keeps each attempt tied to the run that makes it, at most one attempt under way, and the context a stack |
| `Joint.JointOrderly` | worker/job.go:142-220 | in every interleaving of worker and context steps, of a job that is not told to disable itself and starts up enabled or gets at most one start or restart command, the context is such a stack |
| `Joint.ContextIff` | worker/base_provider.go:34-42 | for every capacity and without an injected `jobDisable`: with at most n accepted start and restart commands an attempt that sees another's log file, and a nil context, are each reachable if and only if the job starts up disabled, 2 <= n and Retry is positive |
| `Retention.LogDir.Matched` | worker/loglimit_hook.go:50-55 | exactly the files that start with the mirror's name, each once |
| `Retention.LogDir.SortNewest` | worker/loglimit_hook.go:57-63 | the same files by descending modification time |
| `Retention.LogDir.RemoveOld` | worker/loglimit_hook.go:50-70 | of the matching files exactly the newest min(9, n) are kept, every kept one at least as new as every removed one, and no other file changes |
| `Retention.LogDir.PreExec` | worker/loglimit_hook.go:33-86 | the same, and the `latest` link is renewed |
| `Retention.LogDir.WriteLog` | worker/loglimit_hook.go:97-110 | the whole directory after an attempt: the log created or continued; after a failed sync renamed with `.fail`, if it is there, and `latest` linked again; all other files as before |
| `Retention.WrittenMatching` | worker/base_provider.go:104-121 | an attempt adds at most one matching file, whether its log is new, continued or renamed |
| `Retention.LogDir.Attempts` | worker/loglimit_hook.go:33-110 | after any number of attempts that do not overlap at most ten files match, or eleven if the name is a prefix of `latest`; files of others stay |
| `Retention.LogDir.Overlapping` | worker/loglimit_hook.go:33-110 | after any interleaving of attempts, at most k of them at once, at most nine and k files match, or one more if the name is a prefix of `latest` |
| `Retention.TwoAtOnce` | worker/loglimit_hook.go:50-70 | for every other name two attempts at once can leave eleven |
| `Retention.ElevenLogs` | worker/loglimit_hook.go:81-86 | for every name that is a prefix of `latest` there is a directory in which one attempt leaves eleven matching files |
| `Manager.Server.constructor` | api/v1beta1/job_types.go:103-114 | the status of a job nobody reported on is the zero value of its type |
| `Manager.Server.UpdateJob` | manager/server.go:559-616 | the record after a status report, field by field: which times move, which stay, and when the size is kept |
| `Manager.Server.Handle` | manager/server.go:491-737 | the record after any request; requests change the fields they name and no other |
| `Manager.Replay` | manager/server.go:491-737 | handling a history request by request yields the record the history defines |
| `Manager.StatusIsLastSet` | manager/server.go:559-704 | the status is the one the latest status-setting request set |
| `Manager.Timeline` | manager/server.go:559-616 | for every history: LastUpdate is the time of the latest success, LastEnded of the latest success or failure, LastStarted of the latest PreSyncing entered from another status, LastRegister of the latest registration, LastOnline of the latest request not about the size, each 0 if there was none |
| `Manager.SizeAndSchedule` | manager/server.go:525-640 | for every history the size is the latest one reported, where a status report without one does not count, and the schedule the latest one reported, where it does |
| `Manager.TimelineOrdered` | manager/server.go:559-616 | under a clock that does not run backwards, 0 <= LastUpdate <= LastEnded <= now and 0 <= LastStarted <= now |
| `Delivery.TouchedIff` | worker/schedule.go:43-67 | an entry of the cell survives commands and ticks exactly if no command comes and no tick finds it due; they never make one |
| `Delivery.AskedKeeps` | manager/server.go:491-737 | registrations, enabling, disabling, stopping and size reports between a run's messages change the status and the size to the last one set, and none of the run's times nor the schedule |
| `Delivery.EveryMessage` | worker/worker.go:193-219 | after each message of one run, from any record and any cell, with any messages dropped by the state gate, any flushes and pops in between, a flush between `GetJob` and the manager storing what it read, and any other requests to the manager: when `AddJob` got stuck, and otherwise the status, the times, the schedule and the cell |
| `Delivery.RunOnRecord` | worker/worker.go:193-219 | for every word one run can report (runs' words stand together by `Overlap.MessagesInTurn`) and whatever happens around its messages: `AddJob` deadlocks exactly if the last message asks, is accepted and finds the entry the run found; else the manager's schedule after each accepted message is the worker's as `GetJob` read it although reporting zeroes it, and so the worker's now unless a flush came in between; LastStarted is when PreSyncing was stored unless it was dropped or the record already said PreSyncing, LastStarted <= LastEnded after an ended run, and LastUpdate moves exactly on an accepted success |
| `Delivery.StaysOnCourse` | worker/job.go:142-239 | wherever an undisturbed run of a job with at least one attempt ends, its last message asked to be scheduled |
| `Delivery.NoLostReschedule` | worker/worker.go:193-219 | an undisturbed run with Retry >= 1, its messages not mixed with another's (`Overlap.MessagesInTurn`), calls `AddJob` exactly once if its last message is accepted; the call comes back exactly if the entry the run found was flushed or popped by then, and leaves the cell and the manager's schedule at the last message's time plus the interval unless a command flushes it at once |
| `Delivery.OverlapDeadlocks` | worker/worker.go:193-219 | from every record and an empty cell, the six messages of two successful runs that overlap deadlock at the second request to be scheduled |
| `MirrorZ.ParsePrint` | manager/server.go:1108-1152 | lettered timestamps, negative ones included, read back from their printed form |
| `MirrorZ.StringIsSegments` | manager/server.go:1108-1152 | the string assembled by overwriting and appending is the printed list of its timestamps |
| `MirrorZ.ParseStatus` | manager/server.go:1108-1152 | reading a status string other than the two constants yields the primary timestamp and the suffixes in order |
| `MirrorZ.UniquelyDecodable` | manager/server.go:1108-1152 | two jobs printing the same string other than "U" and "C" have the same status, primary timestamp and schedule, and for Success, Syncing and Failed the same last update |
| `MirrorZ.Announces` | manager/server.go:1108-1152 | "C" exactly for a proxy, else "U" exactly if the status has no time or its time is 0; otherwise S, D, Y, F, P and N first, exactly for Success, PreSyncing, Syncing, Failed, Paused and Created, with LastUpdate, Scheduled, LastStarted, LastEnded, LastEnded and LastRegister; then X, N and O carry exactly the schedule, the registration of a mirror never updated and the last update of one syncing or failed |
| `Size.ReadUnit` | internal/types.go:145-185 | a printed decimal with a unit reads back as that many hundredths of the unit, truncated |
| `Size.ReadBytes` | internal/types.go:145-185 | a printed byte count reads back exactly, except that a single digit is taken for a unit and lost |
| `Size.RoundTrip` | internal/types.go:127-185 | printing and reading composed, for every size |
| `Size.RoundTripError` | internal/types.go:127-185 | exact from ten bytes to a kibibyte, lost below, and above off by at most a two-hundredth of the printed unit plus one byte |
| `Size.RoundTripMonotone` | internal/types.go:127-185 | a larger size never reads back smaller, across all unit boundaries |
| `Size.PrintedSizes` | internal/types.go:127-185 | the law of the pair: when a size up to a kibibyte reads back exactly, the error bound above, and monotonicity |
| `Size.PrintsAs` | internal/types.go:127-143 | nothing for 0, bytes up to 1024, above that the nearest hundredths (the even ones of two) of K, M, G or T, whichever is the largest below the size |
| `Size.ReadSuffix` | internal/types.go:145-185 | a plain decimal with a unit in either case, with or without `i`, in bytes or bits, reads as that many units of 1024, 1024^2, 1024^3 or 1024^4, divided by 8 for bits, truncated |
| `Size.PlainValue` | internal/types.go:157-160 | the value of a plain decimal is its digits without the point over a power of ten |
| `Size.BlanksIgnored` | internal/types.go:148-149 | blanks and line ends anywhere in a size do not matter |
| `Conda.TotalWithout` | docker/worker/anaconda/anaconda.py:151-168 | the total size does not depend on the order packages are visited in |
| `Conda.Fetched` | docker/worker/anaconda/anaconda.py:185-195 | a package is fetched exactly if one of the three tries is good |
| `Conda.StaysConsistent` | docker/worker/anaconda/anaconda.py:175-195 | a change to one package no published copy names, and its work-in-progress file, keeps every published copy consistent |
| `Conda.Mirror.Download` | docker/worker/anaconda/anaconda.py:185-195 | the package is there, with the size of the first good try, exactly if there was one; it appears by renaming a work-in-progress file of that size, which is then gone; only the two changed, at every moment |
| `Conda.Mirror.RefreshOne` | docker/worker/anaconda/anaconda.py:151-195 | a package of the right size is left alone, any other removed and fetched; a published package that changes size breaks the published index on the way, and nothing else does |
| `Conda.Mirror.Refresh` | docker/worker/anaconda/anaconda.py:151-195 | every wanted package is as its tries made it, other files are untouched, the total is right, and some state on the way is inconsistent if and only if some published package changes size |
| `Conda.Mirror.PublishIndex` | docker/worker/anaconda/anaconda.py:197-209 | all copies become the new index, moved into place in order; every state on the way is consistent if the packages are there, and one is not if they are not |
| `Conda.Mirror.Prune` | docker/worker/anaconda/anaconda.py:226-236 | exactly the unwanted packages go, and every state on the way stays consistent |
| `Conda.Mirror.SyncRepo` | docker/worker/anaconda/anaconda.py:127-241 | from a consistent directory every state on the way is consistent if and only if no published package changes size and every wanted one is there or fetched within three tries; the end state file by file: a package of the index with the right size unchanged, any other with the size of the first good of three tries or absent, the three excluded names not counted, other packages gone if the sync deletes, all other files as before |

## Left out

- `twoStageRsyncProvider`: it lowers the running flag and drops the lock between its stages, so process exclusion does not hold for overlapping calls.
- A claim that a ready mirror is always scheduled or running: a ping flushes the schedule and starts nothing.
- worker/job.go and worker/worker.go are a transition system on values, not classes: their goroutines share channels and atomics, and the interleaving is the point; likewise worker/runner.go and the providers' `Run`, `Wait` and `Terminate` in `Process`.
- Requests between worker and manager, and the manager's writes to Kubernetes, are atomic and succeed; HTTP, JSON binding and the cache are not modelled, and so the early replies of handlers after an error are not.
- Direct calls of `baseProvider.Wait`: only `Run` calls it, and one that woke late would lower the flag of a newer process.
- The `disabled` channel, which nothing receives from. Closing it twice panics: two control loops that overlap share the field (`Overlap.OverlapIff` has the condition), so the second of them to return closes a closed channel. The model lets it return instead; no reachability result here uses a state after that.
- Activation.TokenBound: the general bound for several loops is not claimed to be attained; only the one for a single loop is sharp.
- Hooks.Provider.RunJobs: one run at a time; in `Shared` and `Joint`, where runs overlap, the other hooks of an attempt come down to whether it reaches the limiter's post hook.
- Pre-job hooks in `Hooks`: a failing one ends a run before any attempt and touches no context.
- What the ZFS, Btrfs and command hooks do beyond succeeding or failing.
- The default for a retry count of zero, option lists of rsync, and configuration loading.
- Data sizes and log files in `Process`; PIDs and their reuse; real time, which is a parameter or a label.
- Cleaning of joined paths; failures of removing, linking and renaming in the log directory; the log limiter's creation of a missing directory.
- The upstream URL and the error text in the manager's record.
- The other fields of the MirrorZ document, external mirrors, and its sum of sizes.
- Rounding of `float64`: sizes are exact rationals, printed rounding halves to even; reading strings that are not plain decimals is the parameter `other`, without negative or infinite values, overflow of `uint64`, or upper-casing beyond ASCII.
- Conda.Mirror.PublishIndex: a move is one step, which leaves out one across file systems, as it copies and so shows a half-written index for a while; `current_repodata.json`, and a `repodata.json.bz2` that differs from `repodata.json`, are left out too.
- The checksums in `Conda`, which are part of a try's outcome.
- Custom resources and their controller, the name recognizer, merging of job specifications, announcements and files of the manager, and the other mirror scripts: case splits or foreign calls.
