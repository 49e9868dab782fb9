/** The context of a provider as several sync attempts see it: `EnterContext` and
    `ExitContext` load and store `p.ctx` without a lock. Attempts that take turns
    keep the context a stack; attempts that overlap can read each other's log
    file, lose a layer and pop the bottom one.
    Models worker/base_provider.go, lines 34 to 86, worker/loglimit_hook.go, lines
    33 to 110, and worker/context.go.
 */
module Shared {
  import opened JobTypes
  import opened Layers
  import H = Hooks

  /** A layer on the heap. */
  datatype Node = Node(store: map<string, string>, parent: Option<nat>)

  /** Where an attempt stands with respect to the context. */
  datatype Pc =
    | Checking                 // looking up the log file and the log directory
    | Entering                 // EnterContext loads p.ctx,
    | Storing(c: Option<nat>)  // stores a new layer above what it loaded,
    | Returning                // and loads p.ctx again to return it
    | Setting(c: Option<nat>)  // the log file is set in the layer returned
    | Running                  // the sync, which looks up its log file
    | Exiting                  // ExitContext loads p.ctx
    | Dropping(c: Option<nat>) // and stores the parent of what it loaded
    | Over

  datatype Attempt = Attempt(file: string, pc: Pc)

  /** `left` counts the attempts that ended without leaving their layer;
      `overlap` says whether an attempt may begin before another is over. */
  datatype World = World(nodes: seq<Node>, ctx: Option<nat>, attempts: seq<Attempt>, left: nat,
                         overlap: bool, crashed: bool)

  datatype Label = Begin(file: string) | Advance(t: nat, ok: bool)

  function Init(workingDir: string, logDir: string, overlap: bool): World {
    var bottom := map[H.WORKING_DIR := workingDir, H.LOG_DIR := logDir, H.LOG_FILE := logDir + "/latest.log"];
    World([Node(bottom, None)], Some(0), [], 0, overlap, false)
  }

  function Move(w: World, t: nat, pc: Pc): World
    requires t < |w.attempts|
  {
    w.(attempts := w.attempts[t := w.attempts[t].(pc := pc)])
  }

  /** `ok` is whether the log directory can be read before the attempt, and
      whether the attempt reaches the limiter's post hook after it. A lookup, a
      `Set` and an `Exit` on a nil context panic, an `Enter` does not. */
  function Step(w: World, t: nat, ok: bool): Option<World>
    requires t < |w.attempts|
  {
    match w.attempts[t].pc
    case Checking =>
      if w.ctx.None? then Some(w.(crashed := true)) else Some(Move(w, t, if ok then Entering else Over))
    case Entering => Some(Move(w, t, Storing(w.ctx)))
    case Storing(c) => Some(Move(w, t, Returning).(nodes := w.nodes + [Node(map[], c)], ctx := Some(|w.nodes|)))
    case Returning => Some(Move(w, t, Setting(w.ctx)))
    case Setting(c) =>
      if c.None? then Some(w.(crashed := true))
      else if |w.nodes| <= c.value then None
      else
        var node := w.nodes[c.value];
        var stored := node.(store := node.store[H.LOG_FILE := w.attempts[t].file]);
        Some(Move(w, t, Running).(nodes := w.nodes[c.value := stored]))
    case Running =>
      if w.ctx.None? then Some(w.(crashed := true))
      else if ok then Some(Move(w, t, Exiting))
      else Some(Move(w, t, Over).(left := w.left + 1))
    case Exiting => Some(Move(w, t, Dropping(w.ctx)))
    case Dropping(c) =>
      if c.None? then Some(w.(crashed := true))
      else if |w.nodes| <= c.value then None
      else Some(Move(w, t, Over).(ctx := w.nodes[c.value].parent))
    case Over => None
  }

  predicate AllOver(w: World) {
    forall t | 0 <= t < |w.attempts| :: w.attempts[t].pc == Over
  }

  function Next(w: World, lbl: Label): Option<World> {
    if w.crashed then None
    else
      match lbl
      case Begin(file) =>
        if H.EndsInLog(file) && (w.overlap || AllOver(w)) then
          Some(w.(attempts := w.attempts + [Attempt(file, Checking)]))
        else None
      case Advance(t, ok) => if t < |w.attempts| then Step(w, t, ok) else None
  }

  function Interleave(w: World, ls: seq<Label>): Option<World> {
    if ls == [] then Some(w)
    else
      match Interleave(w, ls[..|ls| - 1])
      case None => None
      case Some(v) => Next(v, ls[|ls| - 1])
  }

  // ---------------------------------------------------------------------
  // What a lookup shows
  // ---------------------------------------------------------------------

  predicate Linked(nodes: seq<Node>) {
    forall i | 0 <= i < |nodes| && nodes[i].parent.Some? :: nodes[i].parent.value < i
  }

  /** The layers from `c` down. */
  function StackAt(nodes: seq<Node>, c: nat): Stack
    requires Linked(nodes) && c < |nodes|
  {
    [nodes[c].store] + if nodes[c].parent.None? then [] else StackAt(nodes, nodes[c].parent.value)
  }

  predicate Shaped(w: World) {
    Linked(w.nodes) && w.ctx.Some? && w.ctx.value < |w.nodes|
  }

  function Lookup(w: World, key: string): Option<string>
    requires Shaped(w)
  {
    Find(Flatten(StackAt(w.nodes, w.ctx.value)), key)
  }

  // ---------------------------------------------------------------------
  // Lost updates
  // ---------------------------------------------------------------------

  /** Two attempts that loaded the same context before either stored: of two new
      layers the first is lost, and of two exits the second takes back nothing. */
  lemma LostUpdates(w: World, t: nat, u: nat)
    requires t < |w.attempts| && u < |w.attempts| && t != u && !w.crashed
    requires w.attempts[t].pc == w.attempts[u].pc && (w.attempts[t].pc.Storing? || w.attempts[t].pc.Dropping?)
    requires w.attempts[t].pc.Dropping? ==> w.attempts[t].pc.c.Some? && w.attempts[t].pc.c.value < |w.nodes|
    ensures var w1 := Next(w, Advance(t, true));
            && w1.Some? && Next(w1.value, Advance(u, true)).Some?
            && var w2 := Next(w1.value, Advance(u, true)).value;
            && (w.attempts[t].pc.Storing? ==>
                  && w2.nodes == w.nodes + [Node(map[], w.attempts[t].pc.c), Node(map[], w.attempts[t].pc.c)]
                  && w2.ctx == Some(|w.nodes| + 1))
            && (w.attempts[t].pc.Dropping? ==>
                  w2.nodes == w.nodes && w2.ctx == w1.value.ctx == w.nodes[w.attempts[t].pc.c.value].parent)
  {
  }

  // ---------------------------------------------------------------------
  // Attempts that take turns
  // ---------------------------------------------------------------------

  /** The attempt has its layer on top. */
  predicate Pushed(pc: Pc) {
    pc.Returning? || pc.Setting? || pc.Running? || pc.Exiting? || pc.Dropping?
  }

  /** Where the one attempt that is not over stands. */
  predicate PcOk(w: World, a: Attempt)
    requires Shaped(w)
  {
    var top := w.nodes[w.ctx.value];
    && H.EndsInLog(a.file)
    && (a.pc.Storing? || a.pc.Setting? || a.pc.Dropping? ==> a.pc.c == w.ctx)
    && (Pushed(a.pc) ==> top.parent.Some?)
    && (a.pc.Returning? || a.pc.Setting? ==> top.store == map[])
    && (a.pc.Running? || a.pc.Exiting? || a.pc.Dropping? ==> top.store == map[H.LOG_FILE := a.file])
  }

  /** All attempts but one are over. */
  predicate Others(w: World, t: nat) {
    forall u | 0 <= u < |w.attempts| && u != t :: w.attempts[u].pc == Over
  }

  /** The layers above the bottom one: those left behind, and the current one. */
  function Above(w: World): nat {
    w.left + if exists t :: 0 <= t < |w.attempts| && Pushed(w.attempts[t].pc) then 1 else 0
  }

  ghost predicate StackFits(w: World, workingDir: string, logDir: string) {
    && Shaped(w)
    && H.StackOk(StackAt(w.nodes, w.ctx.value), workingDir, logDir)
    && |StackAt(w.nodes, w.ctx.value)| == 1 + Above(w)
  }

  ghost predicate Orderly(w: World, workingDir: string, logDir: string) {
    && !w.crashed && StackFits(w, workingDir, logDir)
    && forall t | 0 <= t < |w.attempts| && w.attempts[t].pc != Over :: Others(w, t) && PcOk(w, w.attempts[t])
  }

  /** New layers do not change what old ones show. */
  lemma {:induction false} StackGrows(nodes: seq<Node>, node: Node, c: nat)
    requires Linked(nodes) && Linked(nodes + [node]) && c < |nodes|
    ensures StackAt(nodes + [node], c) == StackAt(nodes, c)
  {
    if nodes[c].parent.Some? {
      StackGrows(nodes, node, nodes[c].parent.value);
    }
  }

  /** Setting the top layer leaves the ones below alone. */
  lemma {:induction false} StackBelow(nodes: seq<Node>, i: nat, store: map<string, string>, c: nat)
    requires Linked(nodes) && c < i < |nodes|
    ensures Linked(nodes[i := nodes[i].(store := store)])
    ensures StackAt(nodes[i := nodes[i].(store := store)], c) == StackAt(nodes, c)
  {
    if nodes[c].parent.Some? {
      StackBelow(nodes, i, store, nodes[c].parent.value);
    }
  }

  lemma OneAbove(w: World, t: nat)
    requires t < |w.attempts| && Others(w, t)
    ensures Above(w) == w.left + if Pushed(w.attempts[t].pc) then 1 else 0
  {
  }

  lemma EmptyOk(stack: Stack, workingDir: string, logDir: string)
    requires H.StackOk(stack, workingDir, logDir)
    ensures H.StackOk([map[]] + stack, workingDir, logDir)
  {
    var pushed := [map[]] + stack;
    assert pushed[|pushed| - 1] == stack[|stack| - 1];
    assert forall i | 1 <= i < |pushed| - 1 :: pushed[i] == stack[i - 1];
  }

  lemma PopOk(stack: Stack, workingDir: string, logDir: string)
    requires H.StackOk(stack, workingDir, logDir) && |stack| > 1
    ensures H.StackOk(stack[1..], workingDir, logDir)
  {
  }

  /** A new layer on top of the context. */
  lemma PushFits(w: World, w': World, t: nat, workingDir: string, logDir: string)
    requires StackFits(w, workingDir, logDir) && t < |w.attempts| && Others(w, t) && w.attempts[t].pc == Storing(w.ctx)
    requires w' == Move(w, t, Returning).(nodes := w.nodes + [Node(map[], w.ctx)], ctx := Some(|w.nodes|))
    ensures StackFits(w', workingDir, logDir)
  {
    OneAbove(w, t);
    OneAbove(w', t);
    StackGrows(w.nodes, Node(map[], w.ctx), w.ctx.value);
    var stack := StackAt(w.nodes, w.ctx.value);
    assert StackAt(w'.nodes, |w.nodes|) == [map[]] + stack;
    EmptyOk(stack, workingDir, logDir);
  }

  /** The log file in the top layer. */
  lemma SetFits(w: World, w': World, t: nat, workingDir: string, logDir: string)
    requires StackFits(w, workingDir, logDir) && t < |w.attempts| && Others(w, t) && w.attempts[t].pc == Setting(w.ctx)
    requires PcOk(w, w.attempts[t])
    requires var c := w.ctx.value;
             var stored := w.nodes[c].(store := map[H.LOG_FILE := w.attempts[t].file]);
             w' == Move(w, t, Running).(nodes := w.nodes[c := stored])
    ensures StackFits(w', workingDir, logDir)
  {
    OneAbove(w, t);
    OneAbove(w', t);
    var c, file := w.ctx.value, w.attempts[t].file;
    var below := StackAt(w.nodes, w.nodes[c].parent.value);
    StackBelow(w.nodes, c, map[H.LOG_FILE := file], w.nodes[c].parent.value);
    assert StackAt(w.nodes, c)[1..] == below;
    PopOk(StackAt(w.nodes, c), workingDir, logDir);
    H.PushOk(below, workingDir, logDir, file);
    assert StackAt(w'.nodes, c) == [map[H.LOG_FILE := file]] + below;
  }

  /** The layer goes. */
  lemma PopFits(w: World, w': World, t: nat, workingDir: string, logDir: string)
    requires StackFits(w, workingDir, logDir) && t < |w.attempts| && Others(w, t) && w.attempts[t].pc == Dropping(w.ctx)
    requires PcOk(w, w.attempts[t])
    requires w' == Move(w, t, Over).(ctx := w.nodes[w.ctx.value].parent)
    ensures StackFits(w', workingDir, logDir)
  {
    OneAbove(w, t);
    OneAbove(w', t);
    var c := w.ctx.value;
    assert StackAt(w.nodes, c)[1..] == StackAt(w.nodes, w.nodes[c].parent.value);
    PopOk(StackAt(w.nodes, c), workingDir, logDir);
  }

  /** Neither the layers nor the context change. */
  lemma SameFits(w: World, w': World, t: nat, workingDir: string, logDir: string)
    requires StackFits(w, workingDir, logDir) && t < |w.attempts| && Others(w, t)
    requires |w'.attempts| == |w.attempts| && w' == Move(w, t, w'.attempts[t].pc).(left := w'.left)
    requires w'.left + (if Pushed(w'.attempts[t].pc) then 1 else 0)
             == w.left + if Pushed(w.attempts[t].pc) then 1 else 0
    ensures StackFits(w', workingDir, logDir)
  {
    OneAbove(w, t);
    OneAbove(w', t);
  }

  lemma StepFits(w: World, t: nat, ok: bool, workingDir: string, logDir: string)
    requires StackFits(w, workingDir, logDir) && t < |w.attempts| && Step(w, t, ok).Some?
    requires Others(w, t) && PcOk(w, w.attempts[t])
    ensures StackFits(Step(w, t, ok).value, workingDir, logDir)
  {
    var w' := Step(w, t, ok).value;
    hide StackFits, Others;
    match w.attempts[t].pc
    case Storing(c) => PushFits(w, w', t, workingDir, logDir);
    case Setting(c) => SetFits(w, w', t, workingDir, logDir);
    case Dropping(c) => PopFits(w, w', t, workingDir, logDir);
    case _ => SameFits(w, w', t, workingDir, logDir);
  }

  lemma StepPc(w: World, t: nat, ok: bool)
    requires Shaped(w) && t < |w.attempts| && Step(w, t, ok).Some? && PcOk(w, w.attempts[t])
    requires Shaped(Step(w, t, ok).value)
    ensures var w' := Step(w, t, ok).value;
            && w'.overlap == w.overlap && w'.crashed == w.crashed
            && |w'.attempts| == |w.attempts| && w'.attempts == w.attempts[t := w'.attempts[t]]
            && (w'.attempts[t].pc != Over ==> PcOk(w', w'.attempts[t]))
  {
  }

  lemma StepOrderly(w: World, t: nat, ok: bool, workingDir: string, logDir: string)
    requires Orderly(w, workingDir, logDir) && t < |w.attempts| && Step(w, t, ok).Some?
    ensures Orderly(Step(w, t, ok).value, workingDir, logDir)
  {
    assert Others(w, t) && PcOk(w, w.attempts[t]);
    StepFits(w, t, ok, workingDir, logDir);
    StepPc(w, t, ok);
    hide Step, PcOk;
  }

  lemma BeginOrderly(w: World, file: string, workingDir: string, logDir: string)
    requires Orderly(w, workingDir, logDir) && AllOver(w) && Next(w, Begin(file)).Some?
    ensures Orderly(Next(w, Begin(file)).value, workingDir, logDir)
  {
    var w' := Next(w, Begin(file)).value;
    OneAbove(w', |w.attempts|);
    assert Above(w) == w.left;
  }

  lemma InitOrderly(workingDir: string, logDir: string, overlap: bool)
    ensures Orderly(Init(workingDir, logDir, overlap), workingDir, logDir)
  {
    assert H.WORKING_DIR[0] != H.LOG_FILE[0] && H.LOG_DIR[4] != H.LOG_FILE[4] && H.WORKING_DIR != H.LOG_DIR;
    assert H.EndsInLog(logDir + "/latest.log");
  }

  lemma {:induction false} InterleaveOrderly(workingDir: string, logDir: string, ls: seq<Label>)
    requires Interleave(Init(workingDir, logDir, false), ls).Some?
    ensures var w := Interleave(Init(workingDir, logDir, false), ls).value;
            Orderly(w, workingDir, logDir) && !w.overlap
  {
    if ls == [] {
      InitOrderly(workingDir, logDir, false);
    } else {
      var before, lbl := ls[..|ls| - 1], ls[|ls| - 1];
      InterleaveOrderly(workingDir, logDir, before);
      var w := Interleave(Init(workingDir, logDir, false), before).value;
      NextOverlap(w, lbl);
      hide Orderly, Step;
      match lbl
      case Begin(file) => BeginOrderly(w, file, workingDir, logDir);
      case Advance(t, ok) => StepOrderly(w, t, ok, workingDir, logDir);
    }
  }

  lemma NextOverlap(w: World, lbl: Label)
    requires Next(w, lbl).Some?
    ensures Next(w, lbl).value.overlap == w.overlap && |w.attempts| <= |Next(w, lbl).value.attempts|
  {
  }

  /** What an orderly context shows: the two directories, a log file that is not
      the null device, and to an attempt that is running its own. */
  lemma OrderlyShows(w: World, workingDir: string, logDir: string)
    requires Orderly(w, workingDir, logDir)
    ensures Lookup(w, H.WORKING_DIR) == Some(workingDir) && Lookup(w, H.LOG_DIR) == Some(logDir)
    ensures Lookup(w, H.LOG_FILE).Some? && Lookup(w, H.LOG_FILE).value != "/dev/null"
    ensures !WrongLog(w)
  {
    H.StackShows(StackAt(w.nodes, w.ctx.value), workingDir, logDir);
    forall t | 0 <= t < |w.attempts| && w.attempts[t].pc.Running?
      ensures Lookup(w, H.LOG_FILE) == Some(w.attempts[t].file)
    {
      TopShows(w, w.attempts[t].file);
    }
  }

  /** How many attempts ended without reaching the limiter's post hook. */
  function CutShort(w: World, ls: seq<Label>): nat
    requires Interleave(w, ls).Some?
  {
    if ls == [] then 0
    else
      var before := ls[..|ls| - 1];
      CutShort(w, before) + if Cuts(Interleave(w, before).value, ls[|ls| - 1]) then 1 else 0
  }

  lemma {:induction false} LeftCounts(w: World, ls: seq<Label>)
    requires w.left == 0 && Interleave(w, ls).Some?
    ensures Interleave(w, ls).value.left == CutShort(w, ls)
  {
    if ls != [] {
      LeftCounts(w, ls[..|ls| - 1]);
      LeftNext(Interleave(w, ls[..|ls| - 1]).value, ls[|ls| - 1]);
      hide Next;
    }
  }

  predicate Cuts(w: World, lbl: Label) {
    lbl.Advance? && !lbl.ok && lbl.t < |w.attempts| && w.attempts[lbl.t].pc == Running && w.ctx.Some?
  }

  lemma LeftNext(w: World, lbl: Label)
    requires Next(w, lbl).Some?
    ensures Next(w, lbl).value.left == w.left + if Cuts(w, lbl) then 1 else 0
  {
  }

  /** Attempts that take turns, any number of them: no lookup panics, the two
      directories never change, an attempt that is running sees its own log file,
      the bottom layer is never popped, and above it are exactly the layers of the
      attempts that never reached the limiter's post hook, and the current one. */
  lemma TakingTurns(workingDir: string, logDir: string, ls: seq<Label>)
    requires Interleave(Init(workingDir, logDir, false), ls).Some?
    ensures var w := Interleave(Init(workingDir, logDir, false), ls).value;
            && !w.crashed && Shaped(w)
            && Lookup(w, H.WORKING_DIR) == Some(workingDir) && Lookup(w, H.LOG_DIR) == Some(logDir)
            && Lookup(w, H.LOG_FILE).Some? && Lookup(w, H.LOG_FILE).value != "/dev/null" && !WrongLog(w)
            && |StackAt(w.nodes, w.ctx.value)| ==
               1 + CutShort(Init(workingDir, logDir, false), ls)
               + (if exists t | 0 <= t < |w.attempts| :: Pushed(w.attempts[t].pc) then 1 else 0)
  {
    LeftCounts(Init(workingDir, logDir, false), ls);
    InterleaveOrderly(workingDir, logDir, ls);
    hide Interleave;
    OrderlyShows(Interleave(Init(workingDir, logDir, false), ls).value, workingDir, logDir);
  }

  /** The top layer hides the others. */
  lemma TopShows(w: World, file: string)
    requires Shaped(w) && w.nodes[w.ctx.value].store == map[H.LOG_FILE := file]
    ensures Lookup(w, H.LOG_FILE) == Some(file)
  {
    var stack := StackAt(w.nodes, w.ctx.value);
    assert stack[0] == map[H.LOG_FILE := file];
  }

  // ---------------------------------------------------------------------
  // Attempts that overlap
  // ---------------------------------------------------------------------

  lemma Go(w0: World, ls: seq<Label>, w: World, lbl: Label, w': World) returns (ls': seq<Label>)
    requires Interleave(w0, ls) == Some(w) && Next(w, lbl) == Some(w')
    ensures Interleave(w0, ls') == Some(w')
  {
    ls' := ls + [lbl];
    assert ls'[..|ls|] == ls;
  }

  /** Two attempts that race: both load the bottom layer, both store a layer above
      it, so that one is lost, both set their log file in the other, and when both
      leave, the second pops the bottom layer. `Stage(m)` is the world after `m`
      moves, and `TURN[m]` whose move is next. */
  const TURN := [0, 1, 0, 1, 0, 1, 0, 0, 1, 1, 0, 1, 0, 0, 1, 1]

  const LOST := 10

  function Pcs(m: nat): (Pc, Pc)
    requires m <= |TURN|
  {
    match m
    case 0 => (Checking, Checking)
    case 1 => (Entering, Checking)
    case 2 => (Entering, Entering)
    case 3 => (Storing(Some(0)), Entering)
    case 4 => (Storing(Some(0)), Storing(Some(0)))
    case 5 => (Returning, Storing(Some(0)))
    case 6 => (Returning, Returning)
    case 7 => (Setting(Some(2)), Returning)
    case 8 => (Running, Returning)
    case 9 => (Running, Setting(Some(2)))
    case 10 => (Running, Running)
    case 11 => (Exiting, Running)
    case 12 => (Exiting, Exiting)
    case 13 => (Dropping(Some(2)), Exiting)
    case 14 => (Over, Exiting)
    case 15 => (Over, Dropping(Some(0)))
    case _ => (Over, Over)
  }

  function Nodes(n0: Node, a: string, b: string, m: nat): seq<Node> {
    var n := Node(map[], Some(0));
    if m < 5 then [n0]
    else if m == 5 then [n0, n]
    else if m < 8 then [n0, n, n]
    else [n0, n, Node(map[H.LOG_FILE := if m < 10 then a else b], Some(0))]
  }

  function Stage(w0: World, n0: Node, a: string, b: string, m: nat): World
    requires m <= |TURN|
  {
    var ctx := if m < 5 then Some(0) else if m == 5 then Some(1) else if m < 14 then Some(2)
               else if m < 16 then Some(0) else None;
    w0.(nodes := Nodes(n0, a, b, m), ctx := ctx, attempts := [Attempt(a, Pcs(m).0), Attempt(b, Pcs(m).1)])
  }

  lemma TwoAttempts(x: Attempt, y: Attempt, pc: Pc)
    ensures [x, y][0 := x.(pc := pc)] == [x.(pc := pc), y] && [x, y][1 := y.(pc := pc)] == [x, y.(pc := pc)]
  {
  }

  /** What a move does to the layers. */
  lemma StageNodes(n0: Node, a: string, b: string)
    ensures var n := Node(map[], Some(0));
            && Nodes(n0, a, b, 4) + [n] == Nodes(n0, a, b, 5) && Nodes(n0, a, b, 5) + [n] == Nodes(n0, a, b, 6)
            && Nodes(n0, a, b, 7)[2 := n.(store := n.store[H.LOG_FILE := a])] == Nodes(n0, a, b, 8)
            && Nodes(n0, a, b, 9)[2 := n.(store := map[H.LOG_FILE := a][H.LOG_FILE := b])] == Nodes(n0, a, b, 10)
  {
    assert map[H.LOG_FILE := a][H.LOG_FILE := b] == map[H.LOG_FILE := b];
  }

  lemma StageStep(w0: World, n0: Node, a: string, b: string, m: nat)
    requires m < |TURN| && n0.parent == None && !w0.crashed
    ensures Next(Stage(w0, n0, a, b, m), Advance(TURN[m], true)) == Some(Stage(w0, n0, a, b, m + 1))
  {
    TwoAttempts(Attempt(a, Pcs(m).0), Attempt(b, Pcs(m).1), if TURN[m] == 0 then Pcs(m + 1).0 else Pcs(m + 1).1);
    StageNodes(n0, a, b);
  }

  lemma BeginTwo(w0: World, a: string, b: string) returns (ls: seq<Label>)
    requires H.EndsInLog(a) && H.EndsInLog(b) && w0.attempts == [] && w0.overlap && !w0.crashed
    ensures Interleave(w0, ls) == Some(w0.(attempts := [Attempt(a, Checking), Attempt(b, Checking)]))
  {
    assert Interleave(w0, []) == Some(w0);
    hide Interleave, H.EndsInLog;
    var w1 := w0.(attempts := [Attempt(a, Checking)]);
    assert w0.attempts + [Attempt(a, Checking)] == w1.attempts;
    ls := Go(w0, [], w0, Begin(a), w1);
    var w2 := w0.(attempts := [Attempt(a, Checking), Attempt(b, Checking)]);
    assert w1.attempts + [Attempt(b, Checking)] == w2.attempts;
    ls := Go(w0, ls, w1, Begin(b), w2);
  }

  lemma {:induction false} RunStages(w0: World, n0: Node, a: string, b: string, m: nat) returns (ls: seq<Label>)
    requires H.EndsInLog(a) && H.EndsInLog(b) && w0.attempts == [] && w0.overlap && !w0.crashed
    requires w0.nodes == [n0] && n0.parent == None && w0.ctx == Some(0) && m <= |TURN|
    ensures Interleave(w0, ls) == Some(Stage(w0, n0, a, b, m))
  {
    hide Interleave, H.EndsInLog;
    if m == 0 {
      ls := BeginTwo(w0, a, b);
    } else {
      ls := RunStages(w0, n0, a, b, m - 1);
      StageStep(w0, n0, a, b, m - 1);
      ls := Go(w0, ls, Stage(w0, n0, a, b, m - 1), Advance(TURN[m - 1], true), Stage(w0, n0, a, b, m));
    }
  }

  /** An attempt that is running sees another one's log file. */
  ghost predicate WrongLog(w: World) {
    Shaped(w) && exists t :: 0 <= t < |w.attempts| && w.attempts[t].pc.Running?
                             && Lookup(w, H.LOG_FILE) != Some(w.attempts[t].file)
  }

  ghost predicate Reaches(workingDir: string, logDir: string, overlap: bool, ls: seq<Label>, bad: World -> bool) {
    var w := Interleave(Init(workingDir, logDir, overlap), ls);
    w.Some? && bad(w.value)
  }

  ghost function WrongLogOf(): World -> bool { (w: World) => WrongLog(w) }
  ghost function NoContext(): World -> bool { (w: World) => w.ctx.None? }
  ghost function Panics(): World -> bool { (w: World) => w.crashed }

  lemma Overlapping(workingDir: string, logDir: string) returns (ls1: seq<Label>, ls2: seq<Label>, ls3: seq<Label>)
    ensures Reaches(workingDir, logDir, true, ls1, WrongLogOf())
    ensures Reaches(workingDir, logDir, true, ls2, NoContext())
    ensures Reaches(workingDir, logDir, true, ls3, Panics())
  {
    var w0, a, b := Init(workingDir, logDir, true), "a.log", "b.log";
    var n0 := w0.nodes[0];
    assert a[1..] == ".log" && b[1..] == ".log";
    hide Interleave;
    ls1 := RunStages(w0, n0, a, b, LOST);
    LostIsWrong(w0, n0, a, b);
    ls2 := RunStages(w0, n0, a, b, |TURN|);
    var w: World;
    ls3, w := PanicNext(w0, ls2, Stage(w0, n0, a, b, |TURN|), a);
  }

  lemma LostIsWrong(w0: World, n0: Node, a: string, b: string)
    requires n0.parent == None && a != b
    ensures WrongLog(Stage(w0, n0, a, b, LOST))
  {
    var v := Stage(w0, n0, a, b, LOST);
    TopShows(v, b);
    assert v.attempts[0].pc.Running?;
  }

  /** The next attempt looks up its log file in a nil context. */
  lemma PanicNext(w0: World, ls: seq<Label>, w: World, a: string) returns (ls': seq<Label>, w': World)
    requires Interleave(w0, ls) == Some(w) && w.ctx.None? && !w.crashed && w.overlap && H.EndsInLog(a)
    ensures Interleave(w0, ls') == Some(w') && w'.crashed
  {
    hide Interleave;
    var w1 := w.(attempts := w.attempts + [Attempt(a, Checking)]);
    ls' := Go(w0, ls, w, Begin(a), w1);
    w' := w1.(crashed := true);
    ls' := Go(w0, ls', w1, Advance(|w.attempts|, true), w');
  }

  /** Exactly when the hooks fail the attempts: an attempt can see another one's
      log file, the context can become nil, and a lookup can panic on it, each if
      and only if attempts may overlap. */
  lemma OverlapMatters(workingDir: string, logDir: string, overlap: bool)
    ensures (exists ls :: Reaches(workingDir, logDir, overlap, ls, WrongLogOf())) <==> overlap
    ensures (exists ls :: Reaches(workingDir, logDir, overlap, ls, NoContext())) <==> overlap
    ensures (exists ls :: Reaches(workingDir, logDir, overlap, ls, Panics())) <==> overlap
  {
    if overlap {
      var ls1, ls2, ls3 := Overlapping(workingDir, logDir);
    } else {
      forall ls: seq<Label>
        ensures !Reaches(workingDir, logDir, overlap, ls, WrongLogOf())
        ensures !Reaches(workingDir, logDir, overlap, ls, NoContext())
        ensures !Reaches(workingDir, logDir, overlap, ls, Panics())
      {
        if Interleave(Init(workingDir, logDir, overlap), ls).Some? {
          TakingTurns(workingDir, logDir, ls);
        }
      }
    }
  }
}
