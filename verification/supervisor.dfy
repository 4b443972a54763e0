/** One llama-server process under a load mutex: `LlamaSupervisor` of `process.ts` and the load,
    unload and restart operations of `main.ts`. Every `await` is a point where other steps happen.
    The mutex is the chain of promises it is in the code: each operation waits for the one before it
    to settle. That operations exclude each other is proved, not built in. */
module Supervisor {
  import opened Options

  /** The supervisor's fields; a child process is known by its generation. `running` is the model
      of a running state. */
  datatype Sup = Sup(child: Option<nat>, running: Option<string>)

  /** `spawn` when the process starts. */
  function Spawned(s: Sup, gen: nat, model: string): Sup {
    if s.child.Some? then s else Sup(Some(gen), Some(model))
  }

  /** The guarded tail of `_watchExit`. */
  function Watched(s: Sup, gen: nat): Sup {
    if s.child == Some(gen) then Sup(None, None) else s
  }

  /** What the unguarded tail of `kill` leaves. */
  const STOPPED: Sup := Sup(None, None)

  class LlamaSupervisor {
    var child: Option<nat>
    var running: Option<string>

    ghost function State(): Sup
      reads this
    {
      Sup(child, running)
    }

    constructor ()
      ensures State() == STOPPED
    {
      child, running := None, None;
    }

    /** `spawn`: refuses when a child is held. `process` is the process started, if it starts. */
    method Spawn(model: string, process: Option<nat>) returns (ok: bool)
      modifies this
      ensures State() == if process.Some? then Spawned(old(State()), process.value, model) else old(State())
      ensures ok <==> old(child).None? && process.Some?
    {
      if child.Some? || process.None? { return false; }
      child := process;
      running := Some(model);
      return true;
    }

    /** What `_watchExit` does once the process of its generation is gone. */
    method WatchExit(gen: nat)
      modifies this
      ensures State() == Watched(old(State()), gen)
    {
      if child == Some(gen) {
        running := None;
        child := None;
      }
    }

    /** The part of `kill` before it waits: which process gets the signal, if any. */
    method KillTarget() returns (victim: Option<nat>)
      ensures victim == child
    {
      return child;
    }

    /** The part of `kill` after the process has exited. */
    method KillDone()
      modifies this
      ensures State() == STOPPED
    {
      running := None;
      child := None;
    }
  }

  // ---------- The manager ----------

  /** A restart has read a model from the state file some time before it joins the chain. */
  datatype Op = Load(model: string) | Unload | Restart(model: string)

  /** Where an operation stands. */
  datatype Pc =
    | Waiting
    | Begun
    | Killing(victim: nat)
    | Spawning(model: string)
    | AwaitingHealth(model: string)
    | FailKilling(victim: nat)
    | Writing(model: string)
    | Clearing
    | Settled(rejected: bool)
  {
    predicate Active() {
      !Waiting? && !Settled?
    }
  }

  /** `op = loadMutex.then(...)`: `after` is the operation whose `catch` was in `loadMutex` then. */
  datatype Job = Job(op: Op, after: Option<nat>, pc: Pc)

  /** `alive`, `started` and `nextGen` describe the operating system's processes; `watchers` are exit
      watchers that have not run yet; `tail` is `loadMutex`; `refused` counts spawns that found a child. */
  datatype State = State(
    sup: Sup, alive: set<nat>, started: map<nat, string>, nextGen: nat, watchers: set<nat>,
    jobs: seq<Job>, tail: Option<nat>, persisted: Option<string>, refused: nat)

  /** The steps of operation `i` name it; processes exit and watchers run at any time. */
  datatype Action =
    | Enqueue(op: Op)
    | Begin(i: nat)
    | Start(i: nat)
    | KillFinished(i: nat)
    | Spawn(i: nat, starts: bool)
    | Health(i: nat, ok: bool)
    | WriteState(i: nat, ok: bool)
    | ClearState(i: nat, ok: bool)
    | Exit(gen: nat)
    | Watch(gen: nat)

  /** The promise an operation waits for is fulfilled: nothing came before, or what came before has
      settled, rejected or not, as its `catch` swallows the rejection. */
  predicate Released(s: State, after: Option<nat>) {
    after.None? || (after.value < |s.jobs| && s.jobs[after.value].pc.Settled?)
  }

  predicate Enabled(s: State, a: Action) {
    match a
    case Enqueue(_) => true
    case Begin(i) => i < |s.jobs| && s.jobs[i].pc.Waiting? && Released(s, s.jobs[i].after)
    case Start(i) => i < |s.jobs| && s.jobs[i].pc.Begun?
    case KillFinished(i) =>
      i < |s.jobs| && (s.jobs[i].pc.Killing? || s.jobs[i].pc.FailKilling?) && s.jobs[i].pc.victim !in s.alive
    case Spawn(i, _) => i < |s.jobs| && s.jobs[i].pc.Spawning?
    case Health(i, _) => i < |s.jobs| && s.jobs[i].pc.AwaitingHealth?
    case WriteState(i, _) => i < |s.jobs| && s.jobs[i].pc.Writing?
    case ClearState(i, _) => i < |s.jobs| && s.jobs[i].pc.Clearing?
    case Exit(gen) => gen in s.alive
    case Watch(gen) => gen in s.watchers && gen !in s.alive
  }

  /** What an operation does once the old process, if any, is gone. */
  function AfterKill(op: Op): Pc {
    match op
    case Load(m) => Spawning(m)
    case Restart(m) => Spawning(m)
    case Unload => Clearing
  }

  function At(s: State, i: nat, pc: Pc): State
    requires i < |s.jobs|
  {
    s.(jobs := s.jobs[i := s.jobs[i].(pc := pc)])
  }

  function Apply(s: State, a: Action): State
    requires Enabled(s, a)
  {
    match a
    case Enqueue(op) => s.(jobs := s.jobs + [Job(op, s.tail, Waiting)], tail := Some(|s.jobs|))
    case Begin(i) => At(s, i, Begun)
    case Start(i) =>
      At(s, i, if s.sup.running.Some? && s.sup.child.Some? then Killing(s.sup.child.value) else AfterKill(s.jobs[i].op))
    case KillFinished(i) =>
      At(s, i, if s.jobs[i].pc.Killing? then AfterKill(s.jobs[i].op) else Settled(true)).(sup := STOPPED)
    case Spawn(i, starts) =>
      if s.sup.child.Some? then At(s, i, Settled(true)).(refused := s.refused + 1)
      else if !starts then At(s, i, Settled(true))
      else
        var model := s.jobs[i].pc.model;
        At(s, i, AwaitingHealth(model)).(
          sup := Spawned(s.sup, s.nextGen, model), alive := s.alive + {s.nextGen},
          started := s.started[s.nextGen := model], watchers := s.watchers + {s.nextGen}, nextGen := s.nextGen + 1)
    case Health(i, ok) =>
      At(s, i, if ok then Writing(s.jobs[i].pc.model)
               else if s.sup.child.Some? then FailKilling(s.sup.child.value) else Settled(true))
    case WriteState(i, ok) => At(s, i, Settled(!ok)).(persisted := if ok then Some(s.jobs[i].pc.model) else s.persisted)
    case ClearState(i, ok) => At(s, i, Settled(false)).(persisted := if ok then None else s.persisted)
    case Exit(gen) => s.(alive := s.alive - {gen})
    case Watch(gen) => s.(sup := Watched(s.sup, gen), watchers := s.watchers - {gen})
  }

  /** After startup: idle, with or without the persisted model restored as generation 0. */
  function Booted(persisted: Option<string>, restored: bool): State {
    if persisted.Some? && restored then
      State(Sup(Some(0), persisted), {0}, map[0 := persisted.value], 1, {0}, [], None, persisted, 0)
    else State(STOPPED, {}, map[], 0, {}, [], None, persisted, 0)
  }

  ghost predicate Runs(s: State, actions: seq<Action>)
    decreases |actions|
  {
    actions == [] || (Enabled(s, actions[0]) && Runs(Apply(s, actions[0]), actions[1..]))
  }

  ghost function Run(s: State, actions: seq<Action>): State
    requires Runs(s, actions)
    decreases |actions|
  {
    if actions == [] then s else Run(Apply(s, actions[0]), actions[1..])
  }

  // ---------- The chain ----------

  /** Each operation waits for the one before it, and one that has begun has seen all before it settle. */
  ghost predicate ChainOk(s: State) {
    && s.tail == (if s.jobs == [] then None else Some(|s.jobs| - 1))
    && (forall i :: 0 <= i < |s.jobs| ==> s.jobs[i].after == if i == 0 then None else Some(i - 1))
    && (forall i, j :: 0 <= i < j < |s.jobs| && !s.jobs[j].pc.Waiting? ==> s.jobs[i].pc.Settled?)
  }

  lemma ChainKeeps(s: State, a: Action)
    requires ChainOk(s) && Enabled(s, a)
    ensures ChainOk(Apply(s, a))
  {
    var t := Apply(s, a);
    if a.Begin? && a.i > 0 {
      assert s.jobs[a.i].after == Some(a.i - 1);
      forall k | 0 <= k < a.i ensures t.jobs[k].pc.Settled? {
        assert t.jobs[k] == s.jobs[k];
        assert !s.jobs[a.i - 1].pc.Waiting?;
      }
    }
    forall i, j | 0 <= i < j < |t.jobs| && !t.jobs[j].pc.Waiting? ensures t.jobs[i].pc.Settled? {
      if !a.Enqueue? && !a.Exit? && !a.Watch? && !a.Begin? {
        assert !s.jobs[j].pc.Waiting?;
        assert s.jobs[i].pc.Settled?;
      }
    }
  }

  /** An operation can begin if and only if it is the first that has not settled. */
  lemma TurnIff(s: State, i: nat)
    requires ChainOk(s) && i < |s.jobs|
    ensures Enabled(s, Begin(i)) <==> s.jobs[i].pc.Waiting? && forall k :: 0 <= k < i ==> s.jobs[k].pc.Settled?
  {
    if i > 0 {
      assert s.jobs[i].after == Some(i - 1);
      if s.jobs[i - 1].pc.Settled? {
        assert !s.jobs[i - 1].pc.Waiting?;
      }
    }
  }

  // ---------- Safety ----------

  /** A live process is the child held, and the fields of the state agree with it. */
  ghost predicate ChildOk(s: State) {
    && (forall g :: g in s.alive ==> s.sup.child == Some(g))
    && (s.sup.running.Some? <==> s.sup.child.Some?)
    && (s.sup.child.Some? ==>
          s.sup.child.value in s.started && s.sup.running == Some(s.started[s.sup.child.value])
            && s.sup.child.value in s.watchers)
    && (forall g :: g in s.started || g in s.watchers ==> g < s.nextGen)
  }

  /** What an operation under way may rely on. */
  ghost predicate PcOk(s: State, pc: Pc) {
    match pc
    case Waiting => true
    case Begun => true
    case Killing(victim) => s.sup.child == Some(victim) || s.sup.child.None?
    case Spawning(_) => s.sup.child.None?
    case AwaitingHealth(m) => s.sup.running.Some? ==> s.sup.running == Some(m)
    case FailKilling(victim) => s.sup.child == Some(victim) || s.sup.child.None?
    case Writing(m) => s.sup.running.Some? ==> s.sup.running == Some(m)
    case Clearing => s.sup.child.None?
    case Settled(_) => true
  }

  ghost predicate Inv(s: State) {
    && ChainOk(s) && ChildOk(s) && s.refused == 0
    && (forall i :: 0 <= i < |s.jobs| ==> PcOk(s, s.jobs[i].pc))
  }

  /** The chain lets one operation at a time be under way. */
  lemma OneActive(s: State, i: nat, j: nat)
    requires ChainOk(s) && i < |s.jobs| && j < |s.jobs| && s.jobs[i].pc.Active() && s.jobs[j].pc.Active()
    ensures i == j
  {
  }

  /** The operation a step belongs to, or -1. */
  function Mover(a: Action): int {
    match a
    case Enqueue(_) => -1
    case Exit(_) => -1
    case Watch(_) => -1
    case Begin(i) => i
    case Start(i) => i
    case KillFinished(i) => i
    case Spawn(i, _) => i
    case Health(i, _) => i
    case WriteState(i, _) => i
    case ClearState(i, _) => i
  }

  lemma MoverKeeps(s: State, a: Action)
    requires Inv(s) && Enabled(s, a) && Mover(a) >= 0
    ensures ChildOk(Apply(s, a)) && Apply(s, a).refused == 0 && PcOk(Apply(s, a), Apply(s, a).jobs[Mover(a)].pc)
  {
    hide ChainOk;
    assert PcOk(s, s.jobs[Mover(a)].pc);
  }

  lemma StepKeeps(s: State, a: Action)
    requires Inv(s) && Enabled(s, a)
    ensures Inv(Apply(s, a))
  {
    ChainKeeps(s, a);
    var t := Apply(s, a);
    if Mover(a) >= 0 {
      MoverKeeps(s, a);
      forall i | 0 <= i < |t.jobs| ensures PcOk(t, t.jobs[i].pc) {
        if i != Mover(a) {
          assert t.jobs[i] == s.jobs[i];
          if a.Begin? {
            assert t.sup == s.sup && PcOk(s, s.jobs[i].pc);
          } else if s.jobs[i].pc.Active() {
            OneActive(s, i, Mover(a));
          }
        }
      }
    } else {
      forall i | 0 <= i < |t.jobs| ensures PcOk(t, t.jobs[i].pc) {
        if i < |s.jobs| { assert PcOk(s, s.jobs[i].pc); }
      }
    }
  }

  lemma {:induction false} RunKeeps(s: State, actions: seq<Action>)
    requires Inv(s) && Runs(s, actions)
    ensures Inv(Run(s, actions))
    decreases |actions|
  {
    if actions != [] {
      StepKeeps(s, actions[0]);
      RunKeeps(Apply(s, actions[0]), actions[1..]);
    }
  }

  /** MAIN: after any interleaving of requests, process exits, late exit watchers, failed spawns,
      failed health checks and failed writes, at most one operation is under way, and an operation
      that has begun has seen every earlier one settle. */
  lemma OperationsExclude(persisted: Option<string>, restored: bool, actions: seq<Action>)
    requires Runs(Booted(persisted, restored), actions)
    ensures
      var s := Run(Booted(persisted, restored), actions);
      && (forall i, j :: 0 <= i < |s.jobs| && 0 <= j < |s.jobs| && s.jobs[i].pc.Active() && s.jobs[j].pc.Active() ==>
            i == j)
      && (forall i, j :: 0 <= i < j < |s.jobs| && !s.jobs[j].pc.Waiting? ==> s.jobs[i].pc.Settled?)
  {
    RunKeeps(Booted(persisted, restored), actions);
  }

  /** MAIN: no operation is blocked by one that was rejected: as long as some operation has not
      settled, one is under way, or the earliest waiting one can begin, and no other. */
  lemma ChainNeverBlocks(persisted: Option<string>, restored: bool, actions: seq<Action>)
    returns (first: nat)
    requires Runs(Booted(persisted, restored), actions)
    requires
      var s := Run(Booted(persisted, restored), actions);
      exists i :: 0 <= i < |s.jobs| && !s.jobs[i].pc.Settled?
    ensures
      var s := Run(Booted(persisted, restored), actions);
      && first < |s.jobs| && (forall k :: 0 <= k < first ==> s.jobs[k].pc.Settled?)
      && (s.jobs[first].pc.Active() || Enabled(s, Begin(first)))
      && (forall i :: 0 <= i < |s.jobs| && i != first ==> !s.jobs[i].pc.Active() && !Enabled(s, Begin(i)))
  {
    RunKeeps(Booted(persisted, restored), actions);
    var s := Run(Booted(persisted, restored), actions);
    var open :| 0 <= open < |s.jobs| && !s.jobs[open].pc.Settled?;
    first := 0;
    while s.jobs[first].pc.Settled?
      invariant first <= open && forall k :: 0 <= k < first ==> s.jobs[k].pc.Settled?
      decreases open - first
    {
      first := first + 1;
    }
    TurnIff(s, first);
    forall i | 0 <= i < |s.jobs| && i != first ensures !s.jobs[i].pc.Active() && !Enabled(s, Begin(i)) {
      TurnIff(s, i);
    }
  }

  /** MAIN: at most one process is alive and it is the child held; the state says running exactly when
      a child is held, naming its model; and no spawn has ever found a child in the way. */
  lemma AtMostOneServer(persisted: Option<string>, restored: bool, actions: seq<Action>)
    requires Runs(Booted(persisted, restored), actions)
    ensures
      var s := Run(Booted(persisted, restored), actions);
      && |s.alive| <= 1
      && (forall g :: g in s.alive ==> g in s.started && s.sup == Sup(Some(g), Some(s.started[g])))
      && (s.sup.running.Some? <==> s.sup.child.Some?)
      && s.refused == 0
  {
    RunKeeps(Booted(persisted, restored), actions);
    var s := Run(Booted(persisted, restored), actions);
    if s.alive != {} {
      var g :| g in s.alive;
      assert s.alive == {g};
    }
  }

  /** An exit watcher that runs late changes nothing about a newer generation: only the child
      it was started for can be cleared, and that one is dead. */
  lemma LateWatcherIsHarmless(s: State, gen: nat)
    requires Inv(s) && Enabled(s, Watch(gen))
    ensures s.sup.child != Some(gen) ==> Apply(s, Watch(gen)).sup == s.sup
    ensures forall g :: g in s.alive ==> Apply(s, Watch(gen)).sup == Sup(Some(g), Some(s.started[g]))
  {
  }

  // ---------- The persisted model ----------

  predicate StateWriteFails(a: Action) {
    (a.WriteState? && !a.ok) || (a.ClearState? && !a.ok)
  }

  predicate EarlyPc(pc: Pc) {
    pc.Active() ==> pc.Begun? || pc.Killing?
  }

  /** No operation is past killing the old process. */
  ghost predicate Early(s: State) {
    forall i :: 0 <= i < |s.jobs| ==> EarlyPc(s.jobs[i].pc)
  }

  ghost predicate PersistedOk(s: State) {
    Early(s) && s.sup.running.Some? ==> s.persisted == s.sup.running
  }

  lemma PersistedStep(s: State, a: Action)
    requires Inv(s) && PersistedOk(s) && Enabled(s, a) && !StateWriteFails(a)
    ensures PersistedOk(Apply(s, a))
  {
    var t := Apply(s, a);
    if Early(t) && t.sup.running.Some? {
      if Mover(a) >= 0 {
        assert PcOk(s, s.jobs[Mover(a)].pc) && EarlyPc(t.jobs[Mover(a)].pc);
        if EarlyPc(s.jobs[Mover(a)].pc) {
          forall i | 0 <= i < |s.jobs| && i != Mover(a) ensures EarlyPc(s.jobs[i].pc) {
            assert t.jobs[i] == s.jobs[i];
          }
          assert Early(s);
        }
      } else {
        forall i | 0 <= i < |s.jobs| ensures s.jobs[i] == t.jobs[i] { }
        assert Early(s);
      }
    }
  }

  lemma {:induction false} PersistedRun(s: State, actions: seq<Action>)
    requires Inv(s) && PersistedOk(s) && Runs(s, actions)
    requires forall i :: 0 <= i < |actions| ==> !StateWriteFails(actions[i])
    ensures PersistedOk(Run(s, actions))
    decreases |actions|
  {
    if actions != [] {
      var a := actions[0];
      assert !StateWriteFails(a);
      StepKeeps(s, a);
      PersistedStep(s, a);
      PersistedRun(Apply(s, a), actions[1..]);
    }
  }

  ghost predicate Idle(s: State) {
    forall i :: 0 <= i < |s.jobs| ==> !s.jobs[i].pc.Active()
  }

  /** MAIN: when every write of the state file succeeds, a model that runs while no operation is under
      way is the one a restart of the manager would restore. */
  lemma IdleModelIsPersisted(persisted: Option<string>, restored: bool, actions: seq<Action>)
    requires Runs(Booted(persisted, restored), actions)
    requires forall i :: 0 <= i < |actions| ==> !StateWriteFails(actions[i])
    ensures
      var s := Run(Booted(persisted, restored), actions);
      Idle(s) && s.sup.running.Some? ==> s.persisted == s.sup.running
  {
    PersistedRun(Booted(persisted, restored), actions);
  }

  /** Since `model` was settled on, nothing else runs but a model some operation is still busy with. */
  ghost predicate Since(s: State, model: string, file: Option<string>) {
    && s.persisted == file
    && (s.sup.running.Some? && s.sup.running != Some(model) ==>
          exists i :: 0 <= i < |s.jobs| && Busy(s.jobs[i].pc))
  }

  predicate Busy(pc: Pc) {
    pc.AwaitingHealth? || pc.FailKilling? || pc.Writing?
  }

  predicate TouchesFile(a: Action) {
    a.WriteState? || a.ClearState?
  }

  lemma SinceStep(s: State, a: Action, model: string, file: Option<string>)
    requires Inv(s) && Since(s, model, file) && Enabled(s, a) && !TouchesFile(a)
    ensures Since(Apply(s, a), model, file)
  {
    var t := Apply(s, a);
    if t.sup.running.Some? && t.sup.running != Some(model) {
      if Mover(a) >= 0 && Busy(t.jobs[Mover(a)].pc) {
      } else if s.sup.running == t.sup.running {
        var i :| 0 <= i < |s.jobs| && Busy(s.jobs[i].pc);
        if i != Mover(a) { assert t.jobs[i] == s.jobs[i]; }
      }
    }
  }

  lemma {:induction false} SinceRun(s: State, actions: seq<Action>, model: string, file: Option<string>)
    requires Inv(s) && Since(s, model, file) && Runs(s, actions)
    requires forall i :: 0 <= i < |actions| ==> !TouchesFile(actions[i])
    ensures Since(Run(s, actions), model, file)
    decreases |actions|
  {
    if actions != [] {
      assert !TouchesFile(actions[0]);
      StepKeeps(s, actions[0]);
      SinceStep(s, actions[0], model, file);
      SinceRun(Apply(s, actions[0]), actions[1..], model, file);
    }
  }

  /** MAIN: writes may fail. Let the last write of a run be the one of operation `i`, with anything
      around and after it. A model that runs when all is quiet is then that operation's, and the file
      names it if and only if the write went through or the file named it before. */
  lemma LastWriteDecides(s: State, i: nat, ok: bool, rest: seq<Action>)
    requires Inv(s) && Enabled(s, WriteState(i, ok)) && Runs(Apply(s, WriteState(i, ok)), rest)
    requires forall k :: 0 <= k < |rest| ==> !TouchesFile(rest[k])
    requires Idle(Run(Apply(s, WriteState(i, ok)), rest)) && Run(Apply(s, WriteState(i, ok)), rest).sup.running.Some?
    ensures
      var model := Some(s.jobs[i].pc.model);
      var t := Run(Apply(s, WriteState(i, ok)), rest);
      t.sup.running == model && (t.persisted == t.sup.running <==> ok || s.persisted == model)
  {
    var next := Apply(s, WriteState(i, ok));
    var model := s.jobs[i].pc.model;
    StepKeeps(s, WriteState(i, ok));
    assert PcOk(s, s.jobs[i].pc);
    assert Since(next, model, next.persisted);
    SinceRun(next, rest, model, next.persisted);
  }
}
