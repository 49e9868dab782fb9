/** The life of a provider's OS processes under any number of concurrent `Run`,
    `Terminate` and `Wait` calls: the provider's mutex and running flag, and each
    command's own mutex, `finished` channel and stored error. Every lock, load,
    store, channel operation and system call is one step.
    Models worker/rsync_provider.go and worker/cmd_provider.go (`Run`, `Start`),
    worker/base_provider.go (`Wait`, `Terminate`) and worker/runner.go.
 */
module Process {
  import opened JobTypes

  /** A command's process; the number is the exit error `cmd.Wait` reports. */
  datatype Proc = Unborn | Alive | Zombie(err: int) | Reaped(err: int)

  /** A `cmdJob`: `closes` counts closings of `finished`, `killed` says whether
      the process was sent SIGKILL. */
  datatype Cmd = Cmd(proc: Proc, owner: Option<nat>, closes: nat, retErr: Option<int>, killed: bool)

  const NEW_CMD := Cmd(Unborn, None, 0, None, false)

  /** Where a caller stands: R in `Run` and `Start`, W in `cmdJob.Wait`, T in
      `Terminate`. `own` is the command a `Run` call started itself; a direct
      `cmdJob.Wait` has none. */
  datatype Pc =
    | RLock | RCheck | RPrepare(id: nat) | RExec(id: nat) | RFlag(id: nat) | RUnlock(id: nat) | RStarted(id: nat)
    | RLoad(id: nat) | RFail
    | WLock(c: nat, own: Option<nat>) | WSelect(c: nat, own: Option<nat>) | WBlocked(c: nat, own: Option<nat>)
    | WClose(c: nat, own: Option<nat>, err: int) | WUnlock(c: nat, own: Option<nat>, err: int)
    | RClear(id: nat, err: int)
    | Waited(c: nat, err: int)
    | TLock | TCheck | TSignal(id: nat) | TSelect(id: nat) | TUnlock(ok: bool)
    | Returned(ok: bool)

  datatype Provider = Provider(lock: Option<nat>, running: bool, cmd: Option<nat>, cmds: seq<Cmd>, calls: seq<Pc>)

  const FRESH := Provider(None, false, None, [], [])

  datatype Label =
    | CallRun | CallTerminate | CallWait(c: nat)
    | Exit(c: nat, err: int)
    | Advance(t: nat, choice: bool)

  function At(p: Provider, t: nat, pc: Pc): Provider
    requires t < |p.calls|
  {
    p.(calls := p.calls[t := pc])
  }

  function PutCmd(p: Provider, c: nat, cmd: Cmd): Provider
    requires c < |p.cmds|
  {
    p.(cmds := p.cmds[c := cmd])
  }

  /** `Run` up to the point where it waits. `choice` is the outcome of opening
      the log file and of starting the process. */
  function StepStart(p: Provider, t: nat, choice: bool): Option<Provider>
    requires t < |p.calls|
  {
    match p.calls[t]
    case RLock => if p.lock.Some? then None else Some(At(p, t, RCheck).(lock := Some(t)))
    case RCheck =>
      if p.running then Some(At(p, t, RFail))
      else Some(At(p, t, RPrepare(|p.cmds|)).(cmd := Some(|p.cmds|), cmds := p.cmds + [NEW_CMD]))
    case RPrepare(id) => Some(At(p, t, if choice then RExec(id) else RFail))
    case RExec(id) =>
      if |p.cmds| <= id then None
      else if choice then Some(At(PutCmd(p, id, p.cmds[id].(proc := Alive)), t, RFlag(id)))
      else Some(At(p, t, RFail))
    case RFlag(id) => Some(At(p, t, RUnlock(id)).(running := true))
    case RUnlock(id) => Some(At(p, t, RStarted(id)).(lock := None))
    case RStarted(id) => Some(At(p, t, RLoad(id)))
    case RLoad(id) =>
      // baseProvider.Wait loads p.cmd without the lock.
      if p.cmd.None? then None else Some(At(p, t, WLock(p.cmd.value, Some(id))))
    case RFail => Some(At(p, t, Returned(false)).(lock := None))
    case RClear(id, err) => Some(At(p, t, Waited(id, err)).(running := false))
    case _ => None
  }

  function StepWait(p: Provider, t: nat): Option<Provider>
    requires t < |p.calls|
  {
    match p.calls[t]
    case WLock(c, own) =>
      if |p.cmds| <= c || p.cmds[c].owner.Some? then None
      else Some(At(PutCmd(p, c, p.cmds[c].(owner := Some(t))), t, WSelect(c, own)))
    case WSelect(c, own) =>
      if |p.cmds| <= c then None
      else if p.cmds[c].closes == 0 then Some(At(p, t, WBlocked(c, own)))
      else if p.cmds[c].retErr.None? then None
      else Some(At(p, t, WUnlock(c, own, p.cmds[c].retErr.value)))
    case WBlocked(c, own) =>
      if |p.cmds| <= c || !p.cmds[c].proc.Zombie? then None
      else
        var err := p.cmds[c].proc.err;
        Some(At(PutCmd(p, c, p.cmds[c].(proc := Reaped(err), retErr := Some(err))), t, WClose(c, own, err)))
    case WClose(c, own, err) =>
      if |p.cmds| <= c then None
      else Some(At(PutCmd(p, c, p.cmds[c].(closes := p.cmds[c].closes + 1)), t, WUnlock(c, own, err)))
    case WUnlock(c, own, err) =>
      if |p.cmds| <= c then None
      else Some(At(PutCmd(p, c, p.cmds[c].(owner := None)), t,
                   if own.Some? then RClear(own.value, err) else Waited(c, err)))
    case _ => None
  }

  /** `choice` is whether the two seconds pass before `finished` is closed. */
  function StepTerminate(p: Provider, t: nat, choice: bool): Option<Provider>
    requires t < |p.calls|
  {
    match p.calls[t]
    case TLock => if p.lock.Some? then None else Some(At(p, t, TCheck).(lock := Some(t)))
    case TCheck =>
      if !p.running then Some(At(p, t, TUnlock(true)))
      else if p.cmd.None? then None
      else Some(At(p, t, TSignal(p.cmd.value)))
    case TSignal(id) =>
      if |p.cmds| <= id then None
      else if p.cmds[id].proc.Unborn? || p.cmds[id].proc.Reaped? then Some(At(p, t, TUnlock(false)))
      else Some(At(p, t, TSelect(id)))
    case TSelect(id) =>
      if |p.cmds| <= id then None
      else if choice then Some(At(PutCmd(p, id, p.cmds[id].(killed := true)), t, TUnlock(true)))
      else if p.cmds[id].closes == 0 then None
      else Some(At(p, t, TUnlock(true)))
    case TUnlock(ok) => Some(At(p, t, Returned(ok)).(lock := None))
    case _ => None
  }

  function Next(p: Provider, lbl: Label): Option<Provider> {
    match lbl
    case CallRun => Some(p.(calls := p.calls + [RLock]))
    case CallTerminate => Some(p.(calls := p.calls + [TLock]))
    case CallWait(c) =>
      if c < |p.cmds| && !p.cmds[c].proc.Unborn? then Some(p.(calls := p.calls + [WLock(c, None)])) else None
    case Exit(c, err) =>
      if c < |p.cmds| && p.cmds[c].proc.Alive? then Some(PutCmd(p, c, p.cmds[c].(proc := Zombie(err)))) else None
    case Advance(t, choice) =>
      if |p.calls| <= t then None
      else if InStart(p.calls[t]) then StepStart(p, t, choice)
      else if InWait(p.calls[t]) then StepWait(p, t)
      else StepTerminate(p, t, choice)
  }

  predicate InStart(pc: Pc) {
    pc.RLock? || pc.RCheck? || pc.RPrepare? || pc.RExec? || pc.RFlag? || pc.RUnlock? || pc.RStarted? || pc.RLoad?
    || pc.RFail? || pc.RClear?
  }

  predicate InWait(pc: Pc) {
    pc.WLock? || pc.WSelect? || pc.WBlocked? || pc.WClose? || pc.WUnlock?
  }

  function Interleave(p: Provider, ls: seq<Label>): Option<Provider> {
    if ls == [] then Some(p)
    else
      match Interleave(p, ls[..|ls| - 1])
      case None => None
      case Some(q) => Next(q, ls[|ls| - 1])
  }

  // ---------------------------------------------------------------------
  // The invariant
  // ---------------------------------------------------------------------

  predicate HoldsLock(pc: Pc) {
    pc.RCheck? || pc.RPrepare? || pc.RExec? || pc.RFlag? || pc.RUnlock? || pc.RFail?
    || pc.TCheck? || pc.TSignal? || pc.TSelect? || pc.TUnlock?
  }

  /** The command whose mutex a call holds. */
  function HeldCmd(pc: Pc): Option<nat> {
    if pc.WSelect? || pc.WBlocked? || pc.WClose? || pc.WUnlock? then Some(pc.c) else None
  }

  /** The command whose process a `Run` call is answerable for. */
  function Answers(pc: Pc): Option<nat> {
    match pc
    case RFlag(id) => Some(id)
    case RUnlock(id) => Some(id)
    case RStarted(id) => Some(id)
    case RLoad(id) => Some(id)
    case WLock(_, own) => own
    case WSelect(_, own) => own
    case WBlocked(_, own) => own
    case WClose(_, own, _) => own
    case WUnlock(_, own, _) => own
    case RClear(id, _) => Some(id)
    case _ => None
  }

  /** A process that exists and has not been waited for. */
  predicate Live(p: Provider, c: nat) {
    c < |p.cmds| && (p.cmds[c].proc.Alive? || p.cmds[c].proc.Zombie?)
  }

  predicate Started(p: Provider, c: nat) {
    c < |p.cmds| && !p.cmds[c].proc.Unborn?
  }

  predicate Finished(p: Provider, c: nat, err: int) {
    c < |p.cmds| && p.cmds[c].proc == Reaped(err) && p.cmds[c].closes == 1 && p.cmds[c].retErr == Some(err)
  }

  /** What call `t` may rely on where it stands. */
  predicate CallOk(p: Provider, t: nat)
    requires t < |p.calls|
  {
    var pc := p.calls[t];
    && (HoldsLock(pc) ==> p.lock == Some(t))
    && (HeldCmd(pc).Some? ==> HeldCmd(pc).value < |p.cmds| && p.cmds[HeldCmd(pc).value].owner == Some(t))
    && (Answers(pc).Some? ==>
          && p.cmd == Answers(pc) && Started(p, Answers(pc).value)
          && p.running == !pc.RFlag?)
    && PcOk(p, pc)
  }

  predicate PcOk(p: Provider, pc: Pc) {
    match pc {
      case RPrepare(id) => p.cmd == Some(id) && id < |p.cmds| && p.cmds[id].proc.Unborn? && !p.running
      case RExec(id) => p.cmd == Some(id) && id < |p.cmds| && p.cmds[id].proc.Unborn? && !p.running
      case WLock(c, own) => Started(p, c) && (own.Some? ==> own.value == c)
      case WSelect(c, own) => Started(p, c) && (own.Some? ==> own.value == c)
      case WBlocked(c, own) => Live(p, c) && (own.Some? ==> own.value == c)
      case WClose(c, own, err) =>
        && c < |p.cmds| && p.cmds[c].proc == Reaped(err) && p.cmds[c].closes == 0
        && p.cmds[c].retErr == Some(err) && (own.Some? ==> own.value == c)
      case WUnlock(c, own, err) => Finished(p, c, err) && (own.Some? ==> own.value == c)
      case RClear(id, err) => Finished(p, id, err)
      case Waited(c, err) => Finished(p, c, err)
      case TSignal(id) => p.cmd == Some(id) && Started(p, id)
      case TSelect(id) => p.cmd == Some(id) && Started(p, id)
      case TUnlock(ok) => ok && p.cmd.Some? && Live(p, p.cmd.value) ==> p.cmds[p.cmd.value].killed
      case _ => true
    }
  }

  predicate AnsweredBy(p: Provider, c: nat, t: int) {
    0 <= t < |p.calls| && Answers(p.calls[t]) == Some(c)
  }

  ghost predicate CmdOk(p: Provider, c: nat)
    requires c < |p.cmds|
  {
    var cmd := p.cmds[c];
    && cmd.closes <= 1
    && (cmd.closes == 1 ==> cmd.proc.Reaped? && cmd.retErr == Some(cmd.proc.err))
    && (cmd.owner.Some? ==> cmd.owner.value < |p.calls| && HeldCmd(p.calls[cmd.owner.value]) == Some(c))
    && (cmd.proc.Reaped? && cmd.closes == 0 ==> cmd.owner.Some? && p.calls[cmd.owner.value].WClose?)
    && (Live(p, c) ==> exists t :: AnsweredBy(p, c, t))
  }

  ghost predicate Inv(p: Provider) {
    && (forall t | 0 <= t < |p.calls| :: CallOk(p, t))
    && (forall c | 0 <= c < |p.cmds| :: CmdOk(p, c))
    && (p.lock.Some? ==> p.lock.value < |p.calls| && HoldsLock(p.calls[p.lock.value]))
    && (p.running ==> p.cmd.Some? && Started(p, p.cmd.value))
    && (forall c, d, t, u | AnsweredBy(p, c, t) && AnsweredBy(p, d, u) :: t == u)
  }

  /** Nobody answers for a process while a call holds the lock and sees the flag
      down. */
  lemma NobodyAnswers(p: Provider, t: nat, c: nat, u: int)
    requires Inv(p) && t < |p.calls| && HoldsLock(p.calls[t]) && !p.calls[t].RFlag? && !p.running
    ensures !AnsweredBy(p, c, u)
  {
    assert CallOk(p, t);
    assert 0 <= u < |p.calls| ==> CallOk(p, u);
  }

  lemma StartSelf(p: Provider, t: nat, choice: bool)
    requires Inv(p) && t < |p.calls| && StepStart(p, t, choice).Some?
    ensures CallOk(StepStart(p, t, choice).value, t)
  {
    assert CallOk(p, t);
    hide Inv, CmdOk;
  }

  /** A step of `Run` outside `cmdJob.Wait`: only `RCheck` and `RExec` touch the
      commands, and only `RExec` and `RClear` change who answers for one. */
  lemma StartEffect(p: Provider, t: nat, choice: bool)
    requires Inv(p) && t < |p.calls| && StepStart(p, t, choice).Some?
    ensures var p', pc := StepStart(p, t, choice).value, p.calls[t];
            && p'.calls == p.calls[t := p'.calls[t]]
            && HeldCmd(pc) == HeldCmd(p'.calls[t]) == None
            && (p'.lock != p.lock ==> pc.RLock? || HoldsLock(pc)) && (pc.RLock? ==> p.lock.None?)
            && (p'.running != p.running ==> pc.RFlag? || pc.RClear?)
            && (p'.cmd != p.cmd ==> pc.RCheck? && !p.running)
            && (if pc.RCheck? && !p.running then p'.cmds == p.cmds + [NEW_CMD]
                else if pc.RExec? && p'.calls[t].RFlag? then
                  && pc.id < |p.cmds| && p.cmds[pc.id].proc.Unborn? && p.cmd == Some(pc.id) && !p.running
                  && p'.cmds == p.cmds[pc.id := p.cmds[pc.id].(proc := Alive)] && Answers(p'.calls[t]) == Some(pc.id)
                else p'.cmds == p.cmds)
            && (Answers(pc).Some? ==> Answers(p'.calls[t]) == Answers(pc) || (pc.RClear? && Finished(p, pc.id, pc.err)))
            && (Answers(pc).None? && Answers(p'.calls[t]).Some? ==> pc.RExec? && HoldsLock(pc) && !p.running)
  {
    assert CallOk(p, t);
    hide Inv, CmdOk;
  }

  lemma StartOther(p: Provider, t: nat, choice: bool, u: nat)
    requires Inv(p) && t < |p.calls| && StepStart(p, t, choice).Some? && u < |p.calls| && u != t
    ensures u < |StepStart(p, t, choice).value.calls| && CallOk(StepStart(p, t, choice).value, u)
  {
    StartEffect(p, t, choice);
    assert CallOk(p, t) && CallOk(p, u);
    assert Answers(p.calls[t]).Some? ==> AnsweredBy(p, Answers(p.calls[t]).value, t);
    assert Answers(p.calls[u]).Some? ==> AnsweredBy(p, Answers(p.calls[u]).value, u);
    hide Inv, CmdOk, StepStart;
  }

  lemma StartCmds(p: Provider, t: nat, choice: bool, c: nat)
    requires Inv(p) && t < |p.calls| && StepStart(p, t, choice).Some? && c < |StepStart(p, t, choice).value.cmds|
    ensures CmdOk(StepStart(p, t, choice).value, c)
  {
    var p' := StepStart(p, t, choice).value;
    StartEffect(p, t, choice);
    assert c < |p.cmds| ==> CmdOk(p, c);
    hide Inv, StepStart;
    if Live(p, c) {
      var w :| AnsweredBy(p, c, w);
      assert AnsweredBy(p', c, w) || w == t;
    }
    assert AnsweredBy(p', c, t) || Answers(p'.calls[t]) != Some(c);
  }

  /** A step of `cmdJob.Wait` changes one command, on which it holds or takes
      the mutex, and its own place. */
  lemma WaitEffect(p: Provider, t: nat)
    requires Inv(p) && t < |p.calls| && StepWait(p, t).Some?
    ensures var p', pc := StepWait(p, t).value, p.calls[t];
            && InWait(pc) && pc.c < |p.cmds| && |p'.cmds| == |p.cmds| && |p'.calls| == |p.calls|
            && p' == p.(cmds := p.cmds[pc.c := p'.cmds[pc.c]], calls := p.calls[t := p'.calls[t]])
            && var before, after := p.cmds[pc.c], p'.cmds[pc.c];
            && Started(p, pc.c)
            && before.owner == (if pc.WLock? then None else Some(t))
            && after.owner == (if pc.WUnlock? then None else Some(t))
            && after.killed == before.killed
            && after.closes == before.closes + (if pc.WClose? then 1 else 0)
            && (if pc.WBlocked? then
                  before.proc.Zombie? && after.proc == Reaped(before.proc.err) && after.retErr == Some(before.proc.err)
                else after.proc == before.proc && after.retErr == before.retErr)
            && (pc.WBlocked? || pc.WClose? ==> before.closes == 0)
            && (pc.WClose? ==> before.proc == Reaped(pc.err) && before.retErr == Some(pc.err))
            && Answers(p'.calls[t]) == Answers(pc)
            && HeldCmd(p'.calls[t]) == (if pc.WUnlock? then None else Some(pc.c))
            && (p'.calls[t].WClose? <==> pc.WBlocked?)
  {
    assert CallOk(p, t);
    assert CmdOk(p, p.calls[t].c);
    hide Inv, CmdOk;
  }

  lemma WaitSelf(p: Provider, t: nat)
    requires Inv(p) && t < |p.calls| && StepWait(p, t).Some?
    ensures t < |StepWait(p, t).value.calls| && CallOk(StepWait(p, t).value, t)
  {
    WaitEffect(p, t);
    WaitPc(p, t);
    assert CallOk(p, t);
    hide Inv, CmdOk, StepWait, PcOk;
  }

  lemma WaitPc(p: Provider, t: nat)
    requires Inv(p) && t < |p.calls| && StepWait(p, t).Some?
    ensures t < |StepWait(p, t).value.calls| && PcOk(StepWait(p, t).value, StepWait(p, t).value.calls[t])
    ensures !HoldsLock(StepWait(p, t).value.calls[t]) && !StepWait(p, t).value.calls[t].RFlag?
  {
    var pc := p.calls[t];
    assert PcOk(p, pc) && HeldCmd(pc).Some? ==> pc.c < |p.cmds| && p.cmds[pc.c].owner == Some(t) by {
      assert CallOk(p, t);
    }
    assert PcOk(p, pc) by { assert CallOk(p, t); }
    assert CmdOk(p, pc.c);
    var cmd := p.cmds[pc.c];
    assert cmd.closes <= 1 && (cmd.closes == 1 ==> cmd.proc.Reaped? && cmd.retErr == Some(cmd.proc.err));
    assert pc.WSelect? && cmd.closes == 0 ==> Live(p, pc.c);
    hide Inv, CmdOk, CallOk;
  }

  /** How a command may change under a call that does not hold its mutex. */
  predicate Evolves(before: Cmd, after: Cmd) {
    && after.proc.Unborn? == before.proc.Unborn?
    && (after.proc.Alive? || after.proc.Zombie? ==> before.proc.Alive? || before.proc.Zombie?)
    && (before.proc.Reaped? && before.closes == 1 ==>
          after.proc == before.proc && after.closes == 1 && after.retErr == before.retErr)
    && (before.killed ==> after.killed)
  }

  /** What a command's mutex keeps from changing. */
  predicate KeptByMutex(before: Cmd, after: Cmd) {
    && (before.proc == after.proc || (before.proc.Alive? && after.proc.Zombie?))
    && after.closes == before.closes && after.retErr == before.retErr
  }

  /** What a call relies on survives the steps of others. */
  lemma PcStable(p: Provider, p': Provider, pc: Pc)
    requires PcOk(p, pc) && p'.cmd == p.cmd && p'.running == p.running && |p'.cmds| == |p.cmds|
    requires forall c | 0 <= c < |p.cmds| :: Evolves(p.cmds[c], p'.cmds[c])
    requires HeldCmd(pc).Some? && HeldCmd(pc).value < |p.cmds| ==>
               KeptByMutex(p.cmds[HeldCmd(pc).value], p'.cmds[HeldCmd(pc).value])
    ensures PcOk(p', pc)
  {
  }

  lemma CallStable(p: Provider, p': Provider, t: nat)
    requires t < |p.calls| && t < |p'.calls| && CallOk(p, t) && p'.calls[t] == p.calls[t]
    requires p'.lock == p.lock && p'.cmd == p.cmd && p'.running == p.running && |p'.cmds| == |p.cmds|
    requires forall c | 0 <= c < |p.cmds| :: Evolves(p.cmds[c], p'.cmds[c])
    requires forall c | 0 <= c < |p.cmds| && p.cmds[c].owner == Some(t) ::
               p'.cmds[c].owner == Some(t) && KeptByMutex(p.cmds[c], p'.cmds[c])
    ensures CallOk(p', t)
  {
    PcStable(p, p', p.calls[t]);
    hide PcOk;
  }

  lemma WaitOther(p: Provider, t: nat, u: nat)
    requires Inv(p) && t < |p.calls| && StepWait(p, t).Some? && u < |p.calls| && u != t
    ensures u < |StepWait(p, t).value.calls| && CallOk(StepWait(p, t).value, u)
  {
    WaitEffect(p, t);
    assert CallOk(p, u);
    hide Inv, CmdOk, CallOk, StepWait;
    CallStable(p, StepWait(p, t).value, u);
  }

  lemma WaitCmds(p: Provider, t: nat, c: nat)
    requires Inv(p) && t < |p.calls| && StepWait(p, t).Some? && c < |p.cmds|
    ensures c < |StepWait(p, t).value.cmds| && CmdOk(StepWait(p, t).value, c)
  {
    var p' := StepWait(p, t).value;
    WaitEffect(p, t);
    assert CmdOk(p, c);
    hide Inv, StepWait;
    if Live(p', c) {
      var w :| AnsweredBy(p, c, w);
      assert AnsweredBy(p', c, w);
    }
  }

  lemma TerminateSelf(p: Provider, t: nat, choice: bool)
    requires Inv(p) && t < |p.calls| && StepTerminate(p, t, choice).Some?
    ensures CallOk(StepTerminate(p, t, choice).value, t)
  {
    assert CallOk(p, t);
    if p.cmd.Some? && Live(p, p.cmd.value) {
      assert CmdOk(p, p.cmd.value);
      var w :| AnsweredBy(p, p.cmd.value, w);
      if !p.running && HoldsLock(p.calls[t]) {
        NobodyAnswers(p, t, p.cmd.value, w);
        hide Inv, CmdOk;
      }
    }
  }

  /** A step of `Terminate` changes at most a command's `killed` mark. */
  lemma TerminateEffect(p: Provider, t: nat, choice: bool)
    requires Inv(p) && t < |p.calls| && StepTerminate(p, t, choice).Some?
    ensures var p', pc := StepTerminate(p, t, choice).value, p.calls[t];
            && p' == p.(lock := p'.lock, cmds := p'.cmds, calls := p.calls[t := p'.calls[t]])
            && (p'.lock != p.lock ==> pc.TLock? || HoldsLock(pc)) && (pc.TLock? ==> p.lock.None?)
            && Answers(pc) == Answers(p'.calls[t]) == None && HeldCmd(pc) == HeldCmd(p'.calls[t]) == None
            && |p'.cmds| == |p.cmds|
            && forall c | 0 <= c < |p.cmds| :: p'.cmds[c] == p.cmds[c] || p'.cmds[c] == p.cmds[c].(killed := true)
  {
    assert CallOk(p, t);
    hide Inv, CmdOk;
  }

  lemma TerminateOther(p: Provider, t: nat, choice: bool, u: nat)
    requires Inv(p) && t < |p.calls| && StepTerminate(p, t, choice).Some? && u < |p.calls| && u != t
    ensures u < |StepTerminate(p, t, choice).value.calls| && CallOk(StepTerminate(p, t, choice).value, u)
  {
    TerminateEffect(p, t, choice);
    assert CallOk(p, t) && CallOk(p, u);
    hide Inv, CmdOk, StepTerminate;
  }

  lemma TerminateCmds(p: Provider, t: nat, choice: bool, c: nat)
    requires Inv(p) && t < |p.calls| && StepTerminate(p, t, choice).Some? && c < |p.cmds|
    ensures c < |StepTerminate(p, t, choice).value.cmds| && CmdOk(StepTerminate(p, t, choice).value, c)
  {
    var p' := StepTerminate(p, t, choice).value;
    TerminateEffect(p, t, choice);
    assert CmdOk(p, c);
    hide Inv, StepTerminate;
    if Live(p', c) {
      var w :| AnsweredBy(p, c, w);
      assert AnsweredBy(p', c, w);
    }
  }

  /** Calls and processes coming and going by themselves. */
  lemma EnvCall(p: Provider, lbl: Label, t: nat)
    requires Inv(p) && !lbl.Advance? && Next(p, lbl).Some? && t < |Next(p, lbl).value.calls|
    ensures CallOk(Next(p, lbl).value, t)
  {
    if t < |p.calls| {
      assert CallOk(p, t);
      hide Inv, CmdOk, CallOk;
      CallStable(p, Next(p, lbl).value, t);
    } else {
      NewCall(p, lbl);
    }
  }

  lemma NewCall(p: Provider, lbl: Label)
    requires !lbl.Advance? && Next(p, lbl).Some? && |p.calls| < |Next(p, lbl).value.calls|
    ensures |Next(p, lbl).value.calls| == |p.calls| + 1 && CallOk(Next(p, lbl).value, |p.calls|)
  {
  }

  lemma EnvCmd(p: Provider, lbl: Label, c: nat)
    requires Inv(p) && !lbl.Advance? && Next(p, lbl).Some? && c < |p.cmds|
    ensures c < |Next(p, lbl).value.cmds| && CmdOk(Next(p, lbl).value, c)
  {
    assert CmdOk(p, c);
    hide Inv;
    if Live(p, c) {
      var w :| AnsweredBy(p, c, w);
      assert AnsweredBy(Next(p, lbl).value, c, w);
    }
  }

  lemma EnvInv(p: Provider, lbl: Label)
    requires Inv(p) && !lbl.Advance? && Next(p, lbl).Some?
    ensures Inv(Next(p, lbl).value)
  {
    hide CallOk, CmdOk, Answers;
    var p' := Next(p, lbl).value;
    assert |p'.cmds| == |p.cmds|;
    forall c | 0 <= c < |p.cmds| ensures CmdOk(p', c) { EnvCmd(p, lbl, c); }
    forall t | 0 <= t < |p'.calls| ensures CallOk(p', t) { EnvCall(p, lbl, t); }
    forall c, d, t, u | AnsweredBy(p', c, t) && AnsweredBy(p', d, u) ensures t == u {
      EnvAnswers(p, lbl, c, t);
      EnvAnswers(p, lbl, d, u);
    }
  }

  lemma EnvAnswers(p: Provider, lbl: Label, c: nat, t: int)
    requires !lbl.Advance? && Next(p, lbl).Some? && AnsweredBy(Next(p, lbl).value, c, t)
    ensures AnsweredBy(p, c, t)
  {
  }

  /** No step makes a second call answer. */
  lemma OneAnswers(p: Provider, t: nat, choice: bool, c: nat, d: nat, v: int, w: int)
    requires Inv(p) && Next(p, Advance(t, choice)).Some?
    requires AnsweredBy(Next(p, Advance(t, choice)).value, c, v) && AnsweredBy(Next(p, Advance(t, choice)).value, d, w)
    ensures v == w
  {
    var p' := Next(p, Advance(t, choice)).value;
    if InStart(p.calls[t]) {
      StartEffect(p, t, choice);
      hide StepStart, CallOk, CmdOk;
      if Answers(p.calls[t]).None? && Answers(p'.calls[t]).Some? {
        if v != t { NobodyAnswers(p, t, c, v); }
        if w != t { NobodyAnswers(p, t, d, w); }
      } else {
        Answered(p, p', t, c, v);
        Answered(p, p', t, d, w);
      }
    } else {
      if InWait(p.calls[t]) { WaitEffect(p, t); } else { TerminateEffect(p, t, choice); }
      hide StepWait, StepTerminate, CallOk, CmdOk;
      Answered(p, p', t, c, v);
      Answered(p, p', t, d, w);
    }
  }

  lemma Answered(p: Provider, p': Provider, t: nat, c: nat, v: int)
    requires t < |p.calls| == |p'.calls| && p'.calls == p.calls[t := p'.calls[t]]
    requires Answers(p'.calls[t]).Some? ==> Answers(p.calls[t]).Some?
    requires AnsweredBy(p', c, v)
    ensures AnsweredBy(p, if v == t then Answers(p.calls[t]).value else c, v)
  {
  }

  lemma AdvanceCall(p: Provider, t: nat, choice: bool, u: nat)
    requires Inv(p) && Next(p, Advance(t, choice)).Some? && u < |p.calls|
    ensures u < |Next(p, Advance(t, choice)).value.calls| && CallOk(Next(p, Advance(t, choice)).value, u)
  {
    AdvanceFlags(p, t, choice);
    hide Inv, CallOk, CmdOk, StepStart, StepWait, StepTerminate;
    if InStart(p.calls[t]) {
      if u == t { StartSelf(p, t, choice); } else { StartOther(p, t, choice, u); }
    } else if InWait(p.calls[t]) {
      if u == t { WaitSelf(p, t); } else { WaitOther(p, t, u); }
    } else {
      if u == t { TerminateSelf(p, t, choice); } else { TerminateOther(p, t, choice, u); }
    }
  }

  lemma AdvanceCmd(p: Provider, t: nat, choice: bool, c: nat)
    requires Inv(p) && Next(p, Advance(t, choice)).Some? && c < |Next(p, Advance(t, choice)).value.cmds|
    ensures CmdOk(Next(p, Advance(t, choice)).value, c)
  {
    if InStart(p.calls[t]) {
      hide Inv, CallOk, CmdOk, StepStart;
      StartCmds(p, t, choice, c);
    } else if InWait(p.calls[t]) {
      WaitEffect(p, t);
      hide Inv, CallOk, CmdOk, StepWait;
      WaitCmds(p, t, c);
    } else {
      TerminateEffect(p, t, choice);
      hide Inv, CallOk, CmdOk, StepTerminate;
      TerminateCmds(p, t, choice, c);
    }
  }

  /** The lock's record and the running flag's stay true. */
  lemma AdvanceFlags(p: Provider, t: nat, choice: bool)
    requires Inv(p) && Next(p, Advance(t, choice)).Some?
    ensures var p' := Next(p, Advance(t, choice)).value;
            && |p'.calls| == |p.calls|
            && (p'.lock.Some? ==> p'.lock.value < |p'.calls| && HoldsLock(p'.calls[p'.lock.value]))
            && (p'.running ==> p'.cmd.Some? && Started(p', p'.cmd.value))
  {
    assert CallOk(p, t);
    if InStart(p.calls[t]) {
      hide CmdOk;
    } else if InWait(p.calls[t]) {
      WaitEffect(p, t);
      hide CmdOk, CallOk, StepWait;
    } else {
      TerminateEffect(p, t, choice);
      hide CmdOk, CallOk;
    }
  }

  lemma AdvanceInv(p: Provider, t: nat, choice: bool)
    requires Inv(p) && Next(p, Advance(t, choice)).Some?
    ensures Inv(Next(p, Advance(t, choice)).value)
  {
    var p' := Next(p, Advance(t, choice)).value;
    AdvanceFlags(p, t, choice);
    hide Next, CallOk, CmdOk, Answers;
    forall u | 0 <= u < |p'.calls| ensures CallOk(p', u) { AdvanceCall(p, t, choice, u); }
    forall c | 0 <= c < |p'.cmds| ensures CmdOk(p', c) { AdvanceCmd(p, t, choice, c); }
    forall c, d, v, w | AnsweredBy(p', c, v) && AnsweredBy(p', d, w) ensures v == w {
      OneAnswers(p, t, choice, c, d, v, w);
    }
  }

  lemma {:induction false} Reachable(ls: seq<Label>)
    requires Interleave(FRESH, ls).Some?
    ensures Inv(Interleave(FRESH, ls).value)
  {
    if ls != [] {
      var before, lbl := ls[..|ls| - 1], ls[|ls| - 1];
      Reachable(before);
      hide Inv, Next;
      if lbl.Advance? {
        AdvanceInv(Interleave(FRESH, before).value, lbl.t, lbl.choice);
      } else {
        EnvInv(Interleave(FRESH, before).value, lbl);
      }
    }
  }

  // ---------------------------------------------------------------------
  // What it means
  // ---------------------------------------------------------------------

  /** In every interleaving of any number of calls a provider has at most one
      process; while there is one, the running flag is up or the call that
      started it still holds the lock and is about to raise the flag. So a late
      `Wait` never lowers the flag of a newer process. */
  lemma OneProcess(ls: seq<Label>, c: nat)
    requires Interleave(FRESH, ls).Some? && Live(Interleave(FRESH, ls).value, c)
    ensures var p := Interleave(FRESH, ls).value;
            && (forall d: nat | Live(p, d) :: d == c)
            && p.cmd == Some(c)
            && (p.running || (p.lock.Some? && p.lock.value < |p.calls| && p.calls[p.lock.value] == RFlag(c)))
  {
    Reachable(ls);
    var p := Interleave(FRESH, ls).value;
    hide Interleave;
    forall d: nat | Live(p, d)
      ensures p.cmd == Some(d)
      ensures p.running || (p.lock.Some? && p.lock.value < |p.calls| && p.calls[p.lock.value] == RFlag(d))
    {
      assert CmdOk(p, d);
      var w :| AnsweredBy(p, d, w);
      assert CallOk(p, w);
    }
  }

  /** When `Terminate` is about to return nil, no process of the provider is
      left that was not sent SIGKILL: each was never started, is reaped, or has
      been killed hard. */
  lemma TerminateLeavesNone(ls: seq<Label>, t: nat, c: nat)
    requires Interleave(FRESH, ls).Some?
    requires var p := Interleave(FRESH, ls).value;
             t < |p.calls| && p.calls[t] == TUnlock(true) && c < |p.cmds|
    ensures var cmd := Interleave(FRESH, ls).value.cmds[c];
            cmd.proc.Unborn? || cmd.proc.Reaped? || cmd.killed
  {
    Reachable(ls);
    var p := Interleave(FRESH, ls).value;
    assert CallOk(p, t);
    if Live(p, c) {
      OneProcess(ls, c);
    }
  }

  /** `finished` is closed at most once, and all `Wait` calls on one command
      that return, return the same error: the one its process exited with. */
  lemma WaitsAgree(ls: seq<Label>, t: nat, u: nat)
    requires Interleave(FRESH, ls).Some?
    requires var p := Interleave(FRESH, ls).value;
             && t < |p.calls| && u < |p.calls| && p.calls[t].Waited? && p.calls[u].Waited?
             && p.calls[t].c == p.calls[u].c
    ensures var p := Interleave(FRESH, ls).value;
            && p.calls[t].err == p.calls[u].err
            && p.calls[t].c < |p.cmds|
            && p.cmds[p.calls[t].c].proc == Reaped(p.calls[t].err)
            && p.cmds[p.calls[t].c].closes == 1
  {
    Reachable(ls);
    var p := Interleave(FRESH, ls).value;
    assert CallOk(p, t) && CallOk(p, u);
  }

  lemma ClosedAtMostOnce(ls: seq<Label>, c: nat)
    requires Interleave(FRESH, ls).Some? && c < |Interleave(FRESH, ls).value.cmds|
    ensures Interleave(FRESH, ls).value.cmds[c].closes <= 1
  {
    Reachable(ls);
    assert CmdOk(Interleave(FRESH, ls).value, c);
  }
}
