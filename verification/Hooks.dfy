/** The hooks around a sync attempt and what they do to a provider's context: the
    log limiter enters a layer before each attempt and leaves it after, unless a
    failing hook or a failed Terminate cuts the attempt short. Runs on one provider
    come one after the other here; `Shared` has the loads and stores of the context
    under runs that overlap, and `Joint` says exactly when they do harm.
    Models worker/job.go, lines 106 to 122 and 130 to 220, worker/provider.go,
    lines 152 to 183, worker/loglimit_hook.go, lines 33 to 110, and
    worker/base_provider.go, lines 34 to 86.
 */
module Hooks {
  import opened JobTypes
  import opened Layers
  import R = Retention
  import T = Story

  const WORKING_DIR := "working_dir"
  const LOG_DIR := "log_dir"
  const LOG_FILE := "log_file"

  datatype Hook = LogLimiter | Zfs | Btrfs | ExecPost(onSuccess: bool, command: string)

  predicate LimiterFirst(hooks: seq<Hook>) {
    hooks != [] && hooks[0] == LogLimiter && forall i | 0 < i < |hooks| :: hooks[i] != LogLimiter
  }

  function ExecHooks(commands: seq<string>, onSuccess: bool): seq<Hook> {
    seq(|commands|, i requires 0 <= i < |commands| => ExecPost(onSuccess, commands[i]))
  }

  /** The hook list of every provider: the log limiter once and first, then the
      snapshot hooks asked for, then the commands in the order configured. */
  method NewHooks(zfs: bool, btrfs: bool, onSuccess: seq<string>, onFailure: seq<string>) returns (hooks: seq<Hook>)
    ensures LimiterFirst(hooks)
    ensures hooks == [LogLimiter] + (if zfs then [Zfs] else []) + (if btrfs then [Btrfs] else [])
                     + ExecHooks(onSuccess, true) + ExecHooks(onFailure, false)
  {
    hooks := [LogLimiter];
    if zfs {
      hooks := hooks + [Zfs];
    }
    if btrfs {
      hooks := hooks + [Btrfs];
    }
    ghost var start := hooks;
    for i := 0 to |onSuccess|
      invariant LimiterFirst(hooks)
      invariant hooks == start + ExecHooks(onSuccess, true)[..i]
    {
      hooks := hooks + [ExecPost(true, onSuccess[i])];
    }
    ghost var middle := hooks;
    for i := 0 to |onFailure|
      invariant LimiterFirst(hooks)
      invariant hooks == middle + ExecHooks(onFailure, false)[..i]
    {
      hooks := hooks + [ExecPost(false, onFailure[i])];
    }
  }

  datatype Stage = PreExec | PostExec | PostSuccess | PostFail

  datatype Sync = Synced | NotSynced(killed: bool) | TerminateFailed

  /** What the world does to one attempt: which hook fails at which stage (for
      the log limiter, only reading its directory before the attempt can), the
      minute that names the log file, and the outcome of the sync. */
  datatype Script = Script(fails: (Stage, nat) -> bool, minute: string, sync: Sync)

  predicate EndsInLog(s: string) {
    |s| >= 4 && s[|s| - 4..] == ".log"
  }

  /** Only the bottom layer holds the directories; every log file ends in .log,
      so none is the null device. */
  ghost predicate StackOk(stack: Stack, workingDir: string, logDir: string) {
    && stack != []
    && (forall i | 0 <= i < |stack| - 1 ::
          stack[i].Keys <= {LOG_FILE} && (LOG_FILE in stack[i] ==> EndsInLog(stack[i][LOG_FILE])))
    && var bottom := stack[|stack| - 1];
       && WORKING_DIR in bottom && bottom[WORKING_DIR] == workingDir
       && LOG_DIR in bottom && bottom[LOG_DIR] == logDir
       && LOG_FILE in bottom && EndsInLog(bottom[LOG_FILE])
  }

  lemma {:induction false} StackShows(stack: Stack, workingDir: string, logDir: string)
    requires StackOk(stack, workingDir, logDir)
    ensures Find(Flatten(stack), WORKING_DIR) == Some(workingDir)
    ensures Find(Flatten(stack), LOG_DIR) == Some(logDir)
    ensures Find(Flatten(stack), LOG_FILE).Some? && EndsInLog(Find(Flatten(stack), LOG_FILE).value)
    ensures Find(Flatten(stack), LOG_FILE).value != "/dev/null"
  {
    assert WORKING_DIR[0] != LOG_FILE[0];
    assert LOG_DIR[4] != LOG_FILE[4];
    assert "/dev/null"[5..][0] != ".log"[0];
    if |stack| > 1 {
      assert StackOk(stack[1..], workingDir, logDir);
      StackShows(stack[1..], workingDir, logDir);
    } else {
      assert stack[1..] == [];
    }
  }

  // ---------------------------------------------------------------------
  // When an attempt leaves its layer behind
  // ---------------------------------------------------------------------

  /** No hook but the limiter fails at the stage. */
  predicate Passes(hooks: seq<Hook>, script: Script, stage: Stage) {
    forall i | 0 < i < |hooks| :: !script.fails(stage, i)
  }

  predicate Pushes(script: Script) {
    !script.fails(PreExec, 0)
  }

  /** The attempt gets as far as the limiter's post hook, the last to run. */
  predicate Pops(hooks: seq<Hook>, script: Script) {
    && Passes(hooks, script, PreExec)
    && !script.sync.TerminateFailed?
    && Passes(hooks, script, PostExec)
    && Passes(hooks, script, if script.sync.Synced? then PostSuccess else PostFail)
  }

  predicate Retries(hooks: seq<Hook>, script: Script) {
    Pushes(script) && Pops(hooks, script) && script.sync == NotSynced(false)
  }

  /** The attempt as a story tells it; a `Terminate` that fails is one after a
      timeout or a kill. */
  function Tale(hooks: seq<Hook>, script: Script, early: bool, timeout: bool, ready: bool): T.Attempt {
    var verdict := match script.sync {
      case Synced => T.Succeeded
      case NotSynced(killed) =>
        if killed then T.Killed(true) else if timeout then T.TimedOut(true) else T.Errored
      case TerminateFailed => if timeout then T.TimedOut(false) else T.Killed(false)
    };
    T.Attempt(Pushes(script) && Passes(hooks, script, PreExec), early, verdict, Passes(hooks, script, PostExec),
              Passes(hooks, script, if script.sync.Synced? then PostSuccess else PostFail), ready)
  }

  /** What the hooks make of an attempt agrees with what the run reports of it: it
      is retried here exactly if it is there, and it leaves its layer behind
      exactly if it pushed it and does not get to report its sync. */
  lemma SameAttempt(hooks: seq<Hook>, script: Script, early: bool, timeout: bool, ready: bool)
    ensures var a := Tale(hooks, script, early, timeout, ready);
            && (T.Retried(a) <==> Retries(hooks, script))
            && (Pushes(script) && Pops(hooks, script) <==>
                  a.preExec && !T.Unstoppable(a.verdict) && a.postExec && a.postHooks)
  {
  }

  /** Attempt `k` happens, enters a layer and never leaves it. */
  ghost predicate LeaksAt(hooks: seq<Hook>, retries: int, scripts: nat -> Script, k: nat) {
    && k < retries
    && (forall j: nat | j < k :: Retries(hooks, scripts(j)))
    && Pushes(scripts(k)) && !Pops(hooks, scripts(k))
  }

  /** How many of the first `n` runs leave a layer behind. */
  ghost function LeakCount(hooks: seq<Hook>, retries: int, runs: seq<nat -> Script>, n: nat): nat
    requires n <= |runs|
  {
    if n == 0 then 0
    else
      var scripts := runs[n - 1];
      LeakCount(hooks, retries, runs, n - 1) + if exists k :: LeaksAt(hooks, retries, scripts, k) then 1 else 0
  }

  lemma PushOk(stack: Stack, workingDir: string, logDir: string, file: string)
    requires StackOk(stack, workingDir, logDir) && EndsInLog(file)
    ensures StackOk([map[LOG_FILE := file]] + stack, workingDir, logDir)
  {
    var pushed := [map[LOG_FILE := file]] + stack;
    assert pushed[|pushed| - 1] == stack[|stack| - 1];
    assert forall i | 1 <= i < |pushed| - 1 :: pushed[i] == stack[i - 1];
  }

  /** Of the hooks called, exactly the last failed, if `failed`, and none if not. */
  predicate CalledUntil(script: Script, stage: Stage, ran: seq<nat>, failed: bool) {
    && (failed ==> ran != [])
    && forall i | 0 <= i < |ran| :: script.fails(stage, ran[i]) <==> failed && i == |ran| - 1
  }

  /** The log file of an attempt started in a given minute. */
  function LogPath(logDir: string, name: string, minute: string): string {
    logDir + "/" + R.LogName(name, minute)
  }

  class Provider {
    var ctx: Context?
    const name: string
    const hooks: seq<Hook>
    ghost const workingDir: string
    ghost const logDir: string

    ghost predicate Good()
      reads this, if ctx == null then [] else ctx.layers
    {
      && ctx != null && ctx.Valid()
      && LimiterFirst(hooks)
      && StackOk(ctx.Contents(), workingDir, logDir)
    }

    constructor (name: string, workingDir: string, logDir: string, hooks: seq<Hook>)
      requires LimiterFirst(hooks)
      ensures Good() && ctx.parent == null && |ctx.layers| == 1 && fresh(ctx)
      ensures this.name == name && this.hooks == hooks && this.workingDir == workingDir && this.logDir == logDir
      ensures Lookup(LOG_FILE) == Some(logDir + "/latest.log")
    {
      var bottom := new Context();
      bottom.Set(WORKING_DIR, workingDir);
      bottom.Set(LOG_DIR, logDir);
      bottom.Set(LOG_FILE, logDir + "/latest.log");
      assert WORKING_DIR[0] != LOG_FILE[0];
      assert LOG_DIR[4] != LOG_FILE[4];
      assert LOG_DIR != WORKING_DIR;
      assert EndsInLog(logDir + "/latest.log");
      assert bottom.layers == [bottom] && bottom.Contents() == [bottom.store];
      this.name, this.workingDir, this.logDir, this.hooks := name, workingDir, logDir, hooks;
      ctx := bottom;
    }

    /** None is the panic "impossible to be non-exist". */
    function Lookup(key: string): Option<string>
      requires ctx != null && ctx.Valid()
      reads this, ctx.layers
    {
      ctx.Get(key)
    }

    /** The three panics are unreachable, the two directories constant. */
    lemma NoPanic()
      requires Good()
      ensures Lookup(WORKING_DIR) == Some(workingDir)
      ensures Lookup(LOG_DIR) == Some(logDir)
      ensures Lookup(LOG_FILE).Some? && Lookup(LOG_FILE).value != "/dev/null"
    {
      StackShows(ctx.Contents(), workingDir, logDir);
    }

    method EnterContext()
      requires ctx != null && ctx.Valid()
      modifies this`ctx
      ensures ctx != null && ctx.Valid() && fresh(ctx) && ctx.store == map[]
      ensures ctx.parent == old(ctx) && ctx.layers == [ctx] + old(ctx.layers)
      ensures ctx.Contents() == [map[]] + old(ctx.Contents())
    {
      ctx := ctx.Enter();
    }

    /** The error of leaving the bottom layer is ignored, and nil becomes the
        context. */
    method ExitContext()
      requires ctx != null && ctx.Valid()
      modifies this`ctx
      ensures ctx == old(ctx.parent)
    {
      ctx := ctx.Exit();
    }

    /** The limiter's pre-exec: its layer holds the attempt's log file. */
    method LimiterPreExec(script: Script) returns (err: bool)
      requires Good()
      modifies this`ctx
      ensures Good()
      ensures if err then ctx == old(ctx) else fresh(ctx) && ctx.parent == old(ctx)
      ensures err <==> script.fails(PreExec, 0)
      ensures !err ==> ctx.Contents() == [map[LOG_FILE := LogPath(logDir, name, script.minute)]] + old(ctx.Contents())
    {
      NoPanic();
      var file := ctx.Get(LOG_FILE);
      if file == Some("/dev/null") {
        return false;
      }
      if script.fails(PreExec, 0) {
        return true;
      }
      var dir := ctx.Get(LOG_DIR);
      EnterContext();
      var path := LogPath(dir.value, name, script.minute);
      ctx.Set(LOG_FILE, path);
      assert EndsInLog(path);
      assert ctx.Contents() == [map[LOG_FILE := path]] + old(ctx.Contents());
      PushOk(old(ctx.Contents()), workingDir, logDir, path);
      return false;
    }

    /** All pre-exec hooks in order, up to the first that fails; `ran` lists the
        hooks called. */
    method RunPreExec(script: Script) returns (err: bool, pushed: bool, ran: seq<nat>)
      requires Good()
      modifies this`ctx
      ensures Good()
      ensures pushed <==> Pushes(script)
      ensures err <==> !Pushes(script) || !Passes(hooks, script, PreExec)
      ensures if pushed then fresh(ctx) && ctx.parent == old(ctx) else ctx == old(ctx)
      ensures pushed ==> Lookup(LOG_FILE) == Some(logDir + "/" + name + "_" + script.minute + ".log")
      ensures CalledUntil(script, PreExec, ran, err) && (!err ==> |ran| == |hooks|)
      ensures forall i | 0 <= i < |ran| :: ran[i] == i < |hooks|
    {
      err := LimiterPreExec(script);
      ran := [0];
      if err {
        return true, false, ran;
      }
      assert LogPath(logDir, name, script.minute) == logDir + "/" + name + "_" + script.minute + ".log";
      pushed := true;
      for i := 1 to |hooks|
        invariant forall j | 0 < j < i :: !script.fails(PreExec, j)
        invariant |ran| == i && forall j | 0 <= j < i :: ran[j] == j
      {
        ran := ran + [i];
        if script.fails(PreExec, i) {
          return true, true, ran;
        }
      }
    }

    /** All hooks of a later stage in reverse order, up to the first that fails;
        the limiter, last, leaves its layer after a success or a failure. */
    method RunPost(script: Script, stage: Stage) returns (err: bool, ran: seq<nat>)
      requires Good() && ctx.parent != null && stage != PreExec
      modifies this`ctx
      ensures err <==> !Passes(hooks, script, stage)
      ensures ctx == if err || stage == PostExec then old(ctx) else old(ctx.parent)
      ensures if err then ran != [] && CalledUntil(script, stage, ran, true) else |ran| == |hooks|
      ensures forall i | 0 <= i < |ran| :: |ran| <= |hooks| && ran[i] == |hooks| - 1 - i
    {
      var i := |hooks|;
      ran := [];
      while i > 1
        invariant 1 <= i <= |hooks|
        invariant ctx == old(ctx)
        invariant forall j | i <= j < |hooks| :: !script.fails(stage, j)
        invariant |ran| == |hooks| - i && forall j | 0 <= j < |ran| :: ran[j] == |hooks| - 1 - j
      {
        i := i - 1;
        ran := ran + [i];
        if script.fails(stage, i) {
          return true, ran;
        }
      }
      ran := ran + [0];
      if stage == PostSuccess || stage == PostFail {
        ExitContext();
      }
      return false, ran;
    }

    /** One attempt: whether a layer is left behind, and whether another attempt
        may follow. */
    method Attempt(script: Script) returns (leaked: bool, retry: bool)
      requires Good()
      modifies this`ctx
      ensures Good()
      ensures leaked <==> Pushes(script) && !Pops(hooks, script)
      ensures retry <==> Retries(hooks, script)
      ensures if leaked then ctx.parent == old(ctx) else ctx == old(ctx)
    {
      var err, pushed, ran := RunPreExec(script);
      if err {
        return pushed, false;
      }
      if script.sync.TerminateFailed? {
        return true, false;
      }
      err, ran := RunPost(script, PostExec);
      if err {
        return true, false;
      }
      err, ran := RunPost(script, if script.sync.Synced? then PostSuccess else PostFail);
      return err, !err && script.sync == NotSynced(false);
    }

    /** A sync run leaves the context as it was, or with exactly one layer more:
        that of an attempt that never reached the limiter's post hook. */
    method RunJob(retries: int, scripts: nat -> Script) returns (leaked: bool)
      requires Good()
      modifies this`ctx
      ensures Good()
      ensures leaked <==> exists k :: LeaksAt(hooks, retries, scripts, k)
      ensures if leaked then ctx.parent == old(ctx) else ctx == old(ctx)
    {
      var k := 0;
      while k < retries
        invariant 0 <= k
        invariant ctx == old(ctx) && Good()
        invariant forall j: nat | j < k :: Retries(hooks, scripts(j))
        decreases retries - k
      {
        var left, again := Attempt(scripts(k));
        if left {
          assert LeaksAt(hooks, retries, scripts, k);
          return true;
        }
        if !again {
          assert !Retries(hooks, scripts(k));
          return false;
        }
        k := k + 1;
      }
      return false;
    }

    /** Over any number of runs the context's depth is what it was plus one per
        run that left a layer behind, the bottom layer is never popped, and the
        directories never change. */
    method RunJobs(retries: int, runs: seq<nat -> Script>) returns (leaks: nat)
      requires Good()
      modifies this`ctx
      ensures Good()
      ensures |ctx.layers| == old(|ctx.layers|) + leaks && leaks <= |runs|
      ensures leaks == LeakCount(hooks, retries, runs, |runs|)
      ensures ctx.layers[leaks..] == old(ctx.layers)
      ensures Lookup(WORKING_DIR) == Some(workingDir) && Lookup(LOG_DIR) == Some(logDir)
    {
      leaks := 0;
      for i := 0 to |runs|
        invariant Good() && leaks <= i && leaks == LeakCount(hooks, retries, runs, i)
        invariant |ctx.layers| == old(|ctx.layers|) + leaks && ctx.layers[leaks..] == old(ctx.layers)
      {
        var leaked := RunJob(retries, runs[i]);
        if leaked {
          leaks := leaks + 1;
        }
      }
      NoPanic();
    }
  }
}
