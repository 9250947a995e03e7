/** The live project map of the daemon (daemon/src/cli/daemon.ts): the startup
    loader and the serialized add and remove operations, cut at their awaits. */
module LiveMap {
  import opened Common

  const MAX_LIVE_PROJECTS := 64

  /** The identity of a root path; two spellings of one directory have one key. */
  type RootKey = string -> string

  datatype Runtime = Runtime(alias: string, root: string)

  type Runtimes = map<string, Runtime>

  datatype Op = Add(root: string) | Remove(name: string)

  datatype Outcome = Added(alias: string) | AlreadyServed(alias: string) | Removed | NotFound | Refused

  /** Between mutations, or in the middle of retiring a runtime: to remove it,
      or to make room for `root` under the same alias. */
  datatype Phase = Quiet | Retiring(runtime: Runtime, replacement: Option<string>)

  datatype State = State(
    primary: string, runtimes: Runtimes, served: Runtimes, phase: Phase,
    queue: seq<Op>, done: seq<(Op, Outcome)>)

  /** What the file system, the registry and the new project's start answer to an add. */
  datatype AddEnv = AddEnv(hasDir: bool, isDir: string -> bool, alias: Option<string>, starts: bool)

  datatype Step =
    | Submit(op: Op)
    | StartAdd(env: AddEnv)
    | StartRemove
    | Retired(shutdownOk: bool, starts: bool)

  // ---------------------------------------------------------------- one project per root

  ghost predicate DistinctRoots(key: RootKey, rs: Runtimes) {
    forall a, b :: a in rs && b in rs && key(rs[a].root) == key(rs[b].root) ==> a == b
  }

  /** The alias under which the directory `root` is served. */
  function Holder(key: RootKey, rs: Runtimes, root: string): (r: Option<string>)
    requires DistinctRoots(key, rs)
    ensures r.Some? ==> r.value in rs && key(rs[r.value].root) == key(root)
    ensures r.None? ==> forall a :: a in rs ==> key(rs[a].root) != key(root)
  {
    if exists a :: a in rs && key(rs[a].root) == key(root) then
      var a :| a in rs && key(rs[a].root) == key(root);
      Some(a)
    else None
  }

  // ---------------------------------------------------------------- the steps

  /** The operation at the head of the queue ends. */
  function End(s: State, outcome: Outcome): State
    requires s.queue != []
  {
    s.(phase := Quiet, queue := s.queue[1..], done := s.done + [(s.queue[0], outcome)])
  }

  /** The last part of an add: cap, alias, start. */
  function CompleteAdd(s: State, root: string, alias: string, starts: bool): State
    requires s.queue != []
  {
    if |s.runtimes| >= MAX_LIVE_PROJECTS || alias in s.runtimes || !starts then End(s, Refused)
    else
      var runtime := Runtime(alias, root);
      End(s.(runtimes := s.runtimes[alias := runtime], served := s.served[alias := runtime]), Added(alias))
  }

  /** A runtime that may be evicted: not the primary, and its root is gone. */
  predicate IsStale(primary: string, rs: Runtimes, isDir: string -> bool, alias: string) {
    alias in rs && alias != primary && !isDir(rs[alias].root)
  }

  function AfterStartAdd(key: RootKey, s: State, env: AddEnv): State
    requires DistinctRoots(key, s.runtimes) && s.queue != [] && s.queue[0].Add?
  {
    var root := s.queue[0].root;
    var holder := Holder(key, s.runtimes, root);
    if holder.Some? then End(s, AlreadyServed(holder.value))
    else if !env.hasDir then End(s, Refused)
    else if |s.runtimes| >= MAX_LIVE_PROJECTS && !(exists a :: a in s.runtimes && IsStale(s.primary, s.runtimes, env.isDir, a))
    then End(s, Refused)
    else if env.alias.None? then End(s, Refused)
    else if IsStale(s.primary, s.runtimes, env.isDir, env.alias.value) then
      var alias := env.alias.value;
      s.(served := s.served - {alias}, phase := Retiring(s.runtimes[alias], Some(root)))
    else CompleteAdd(s, root, env.alias.value, env.starts)
  }

  function AfterStartRemove(key: RootKey, s: State): State
    requires DistinctRoots(key, s.runtimes) && s.queue != [] && s.queue[0].Remove?
  {
    var name := s.queue[0].name;
    var target := if name in s.runtimes then Some(name) else Holder(key, s.runtimes, name);
    if target.None? then End(s, NotFound)
    else if target.value == s.primary then End(s, Refused)
    else s.(served := s.served - {target.value}, phase := Retiring(s.runtimes[target.value], None))
  }

  /** The retired runtime has shut down, or failed to: it is dropped either way. */
  function AfterRetired(s: State, shutdownOk: bool, starts: bool): State
    requires s.phase.Retiring? && s.queue != []
  {
    var runtime := s.phase.runtime;
    var s' := s.(runtimes := s.runtimes - {runtime.alias});
    if s.phase.replacement.Some? then CompleteAdd(s', s.phase.replacement.value, runtime.alias, starts)
    else End(s', if shutdownOk then Removed else Refused)
  }

  predicate Enabled(s: State, step: Step) {
    match step
    case Submit(_) => true
    case StartAdd(_) => s.phase.Quiet? && s.queue != [] && s.queue[0].Add?
    case StartRemove => s.phase.Quiet? && s.queue != [] && s.queue[0].Remove?
    case Retired(_, _) => s.phase.Retiring? && s.queue != []
  }

  function Next(key: RootKey, s: State, step: Step): State
    requires DistinctRoots(key, s.runtimes) && Enabled(s, step)
  {
    match step
    case Submit(op) => s.(queue := s.queue + [op])
    case StartAdd(env) => AfterStartAdd(key, s, env)
    case StartRemove => AfterStartRemove(key, s)
    case Retired(ok, starts) => AfterRetired(s, ok, starts)
  }

  // ---------------------------------------------------------------- the invariant

  /** At most 64 projects, each under its own alias and its own root; the primary among them. */
  ghost predicate RuntimesInv(key: RootKey, s: State) {
    && |s.runtimes| <= MAX_LIVE_PROJECTS
    && (forall a :: a in s.runtimes ==> s.runtimes[a].alias == a)
    && DistinctRoots(key, s.runtimes)
    && s.primary in s.runtimes
  }

  /** The runtime that `name` stands for: by its alias, else by its root. */
  predicate Names(key: RootKey, rs: Runtimes, name: string, alias: string) {
    alias in rs && (alias == name || (name !in rs && key(rs[alias].root) == key(name)))
  }

  /** Requests reach every runtime but the one being retired, and nothing else;
      what is retired was named by the removal, or is no holder of the new root. */
  ghost predicate ServedInv(key: RootKey, s: State) {
    match s.phase
    case Quiet => s.served == s.runtimes
    case Retiring(r, replacement) =>
      && r.alias in s.runtimes && s.runtimes[r.alias] == r && r.alias != s.primary
      && s.served == s.runtimes - {r.alias}
      && s.queue != []
      && (if replacement.Some? then s.queue[0] == Add(replacement.value)
          else s.queue[0].Remove? && Names(key, s.runtimes, s.queue[0].name, r.alias))
      && (replacement.Some? ==> forall a :: a in s.runtimes ==> key(s.runtimes[a].root) != key(replacement.value))
  }

  ghost predicate Inv(key: RootKey, s: State) {
    RuntimesInv(key, s) && ServedInv(key, s)
  }

  lemma CompleteAddKeepsInv(key: RootKey, s: State, root: string, alias: string, starts: bool)
    requires RuntimesInv(key, s) && s.served == s.runtimes && s.queue != []
    requires forall a :: a in s.runtimes ==> key(s.runtimes[a].root) != key(root)
    ensures Inv(key, CompleteAdd(s, root, alias, starts))
  {
  }

  lemma StartAddKeepsInv(key: RootKey, s: State, env: AddEnv)
    requires Inv(key, s) && Enabled(s, StartAdd(env))
    ensures Inv(key, AfterStartAdd(key, s, env))
  {
    var root := s.queue[0].root;
    if Holder(key, s.runtimes, root).None? && env.alias.Some? {
      CompleteAddKeepsInv(key, s, root, env.alias.value, env.starts);
    }
  }

  lemma RetiredKeepsInv(key: RootKey, s: State, shutdownOk: bool, starts: bool)
    requires Inv(key, s) && Enabled(s, Retired(shutdownOk, starts))
    ensures Inv(key, AfterRetired(s, shutdownOk, starts))
  {
    var runtime := s.phase.runtime;
    var s' := s.(runtimes := s.runtimes - {runtime.alias});
    assert s'.runtimes.Keys == s.runtimes.Keys - {runtime.alias};
    if s.phase.replacement.Some? {
      CompleteAddKeepsInv(key, s', s.phase.replacement.value, runtime.alias, starts);
    }
  }

  lemma StepKeepsInv(key: RootKey, s: State, step: Step)
    requires Inv(key, s) && Enabled(s, step)
    ensures Inv(key, Next(key, s, step))
  {
    match step {
      case Submit(_) =>
      case StartAdd(env) => StartAddKeepsInv(key, s, env);
      case StartRemove =>
      case Retired(ok, starts) => RetiredKeepsInv(key, s, ok, starts);
    }
  }

  lemma CompleteAddKeepsOthers(s: State, root: string, alias: string, starts: bool, other: string)
    requires s.queue != [] && other in s.runtimes
    ensures var s' := CompleteAdd(s, root, alias, starts);
      s'.primary == s.primary && other in s'.runtimes && s'.runtimes[other] == s.runtimes[other]
  {
  }

  lemma RetiredKeepsOthers(s: State, shutdownOk: bool, starts: bool, other: string)
    requires s.phase.Retiring? && s.queue != [] && other in s.runtimes && other != s.phase.runtime.alias
    ensures var s' := AfterRetired(s, shutdownOk, starts);
      s'.primary == s.primary && other in s'.runtimes && s'.runtimes[other] == s.runtimes[other]
  {
    var runtime := s.phase.runtime;
    if s.phase.replacement.Some? {
      CompleteAddKeepsOthers(s.(runtimes := s.runtimes - {runtime.alias}), s.phase.replacement.value, runtime.alias, starts, other);
    }
  }

  lemma StartAddKeepsAll(key: RootKey, s: State, env: AddEnv, other: string)
    requires DistinctRoots(key, s.runtimes) && s.queue != [] && s.queue[0].Add? && other in s.runtimes
    ensures var s' := AfterStartAdd(key, s, env);
      s'.primary == s.primary && other in s'.runtimes && s'.runtimes[other] == s.runtimes[other]
  {
    if env.alias.Some? {
      CompleteAddKeepsOthers(s, s.queue[0].root, env.alias.value, env.starts, other);
    }
  }

  lemma StartRemoveKeepsAll(key: RootKey, s: State)
    requires DistinctRoots(key, s.runtimes) && s.queue != [] && s.queue[0].Remove?
    ensures AfterStartRemove(key, s).primary == s.primary && AfterStartRemove(key, s).runtimes == s.runtimes
  {
  }

  /** The step drops the runtime it was retiring. */
  predicate Drops(s: State, step: Step, alias: string) {
    step.Retired? && s.phase.Retiring? && alias == s.phase.runtime.alias
  }

  /** A runtime disappears or changes only when it was retired, whatever its shutdown answered. */
  lemma OnlyRetiredDisappear(key: RootKey, s: State, step: Step, alias: string)
    requires DistinctRoots(key, s.runtimes) && Enabled(s, step) && alias in s.runtimes && !Drops(s, step, alias)
    ensures var s' := Next(key, s, step);
      s'.primary == s.primary && alias in s'.runtimes && s'.runtimes[alias] == s.runtimes[alias]
  {
    match step {
      case Submit(_) =>
      case StartAdd(env) => StartAddKeepsAll(key, s, env, alias);
      case StartRemove => StartRemoveKeepsAll(key, s);
      case Retired(ok, starts) => RetiredKeepsOthers(s, ok, starts, alias);
    }
  }

  /** An add begins to evict only a runtime that is not the primary and whose root is gone. */
  lemma AddEvictsOnlyStale(key: RootKey, s: State, env: AddEnv)
    requires Inv(key, s) && Enabled(s, StartAdd(env)) && AfterStartAdd(key, s, env).phase.Retiring?
    ensures var r := AfterStartAdd(key, s, env).phase.runtime;
      r.alias != s.primary && r.alias in s.runtimes && s.runtimes[r.alias] == r && !env.isDir(r.root)
      && key(r.root) != key(s.queue[0].root)
  {
  }

  /** What the answer to an add says about the runtimes: the new one is the only change. A
      refused one may still have retired a stale runtime. */
  ghost predicate AddIsTrue(key: RootKey, before: Runtimes, s: State, root: string, outcome: Outcome) {
    match outcome
    case Added(alias) => s.runtimes == before[alias := Runtime(alias, root)]
    case AlreadyServed(alias) => s.runtimes == before && alias in before && key(before[alias].root) == key(root)
    case Refused => s.runtimes == before || exists a :: a != s.primary && IsDropped(before, s.runtimes, a)
    case _ => false
  }

  /** The answer to a removal: the named runtime is the only one gone. It is refused for the primary,
      which stays, or because the shutdown failed, and then the runtime is gone all the same. */
  ghost predicate RemoveIsTrue(key: RootKey, before: Runtimes, s: State, name: string, outcome: Outcome) {
    match outcome
    case Removed => exists a :: Names(key, before, name, a) && a != s.primary && IsDropped(before, s.runtimes, a)
    case NotFound => s.runtimes == before && forall a :: !Names(key, before, name, a)
    case Refused =>
      exists a :: Names(key, before, name, a)
                  && if a == s.primary then s.runtimes == before else IsDropped(before, s.runtimes, a)
    case _ => false
  }

  ghost predicate IsTrue(key: RootKey, before: Runtimes, s: State, op: Op, outcome: Outcome) {
    match op
    case Add(root) => AddIsTrue(key, before, s, root, outcome)
    case Remove(name) => RemoveIsTrue(key, before, s, name, outcome)
  }

  ghost predicate IsDropped(before: Runtimes, after: Runtimes, alias: string) {
    alias in before && after == before - {alias}
  }

  lemma ReplacesDropped(before: Runtimes, rest: Runtimes, runtime: Runtime)
    requires rest == before || IsDropped(before, rest, runtime.alias)
    ensures rest[runtime.alias := runtime] == before[runtime.alias := runtime]
  {
  }

  lemma CompleteAddIsTrue(key: RootKey, before: Runtimes, s: State, root: string, alias: string, starts: bool)
    requires s.queue != [] && s.queue[0] == Add(root)
    requires s.runtimes == before || (alias != s.primary && IsDropped(before, s.runtimes, alias))
    ensures var s' := CompleteAdd(s, root, alias, starts);
      var (op, outcome) := s'.done[|s.done|];
      s'.phase.Quiet? && op == Add(root) && AddIsTrue(key, before, s', root, outcome)
  {
    if |s.runtimes| < MAX_LIVE_PROJECTS && alias !in s.runtimes && starts {
      ReplacesDropped(before, s.runtimes, Runtime(alias, root));
    }
  }

  /** The head of the queue has been answered, and the answer is true. */
  ghost predicate IsAnswered(key: RootKey, s: State, s': State) {
    && s.queue != [] && |s'.done| == |s.done| + 1 && s'.phase.Quiet?
    && s'.done[|s.done|].0 == s.queue[0] && IsTrue(key, s.runtimes, s', s.queue[0], s'.done[|s.done|].1)
  }

  lemma RetiredIsTrue(key: RootKey, s: State, shutdownOk: bool, starts: bool)
    requires Inv(key, s) && Enabled(s, Retired(shutdownOk, starts))
    ensures IsAnswered(key, s, AfterRetired(s, shutdownOk, starts))
  {
    var runtime := s.phase.runtime;
    var rest := s.(runtimes := s.runtimes - {runtime.alias});
    assert IsDropped(s.runtimes, rest.runtimes, runtime.alias);
    if s.phase.replacement.Some? {
      CompleteAddIsTrue(key, s.runtimes, rest, s.phase.replacement.value, runtime.alias, starts);
    } else {
      assert Names(key, s.runtimes, s.queue[0].name, runtime.alias);
    }
  }

  lemma StartRemoveIsTrue(key: RootKey, s: State)
    requires Inv(key, s) && Enabled(s, StartRemove) && AfterStartRemove(key, s).phase.Quiet?
    ensures IsAnswered(key, s, AfterStartRemove(key, s))
  {
    var name := s.queue[0].name;
    var target := if name in s.runtimes then Some(name) else Holder(key, s.runtimes, name);
    if target.Some? {
      assert Names(key, s.runtimes, name, target.value);
    }
  }

  lemma StartAddIsTrue(key: RootKey, s: State, env: AddEnv)
    requires Inv(key, s) && Enabled(s, StartAdd(env)) && |AfterStartAdd(key, s, env).done| > |s.done|
    ensures IsAnswered(key, s, AfterStartAdd(key, s, env))
  {
    if env.alias.Some? {
      CompleteAddIsTrue(key, s.runtimes, s, s.queue[0].root, env.alias.value, env.starts);
    }
  }

  /** The answer to an operation is true when it is given, and requests then reach exactly the runtimes. */
  lemma AnswersAreTrue(key: RootKey, s: State, step: Step)
    requires Inv(key, s) && Enabled(s, step) && |Next(key, s, step).done| > |s.done|
    ensures IsAnswered(key, s, Next(key, s, step)) && Next(key, s, step).served == Next(key, s, step).runtimes
  {
    StepKeepsInv(key, s, step);
    match step {
      case Submit(_) =>
      case StartAdd(env) => StartAddIsTrue(key, s, env);
      case StartRemove => StartRemoveIsTrue(key, s);
      case Retired(ok, starts) => RetiredIsTrue(key, s, ok, starts);
    }
  }

  /** A whole operation: its first turn and, if that retires a runtime, its second one after `more` was submitted. */
  function Turn(key: RootKey, s: State, first: Step, more: seq<Op>, shutdownOk: bool, starts: bool): State
    requires DistinctRoots(key, s.runtimes) && Enabled(s, first) && !first.Submit? && !first.Retired?
  {
    var s' := Next(key, s, first);
    if s'.phase.Retiring? && s'.queue != [] then AfterRetired(s'.(queue := s'.queue + more), shutdownOk, starts) else s'
  }

  /** The alias is held by a runtime that may make way: not the primary, and its root is gone. */
  predicate MakesWay(s: State, env: AddEnv, alias: string) {
    alias in s.runtimes && alias != s.primary && !env.isDir(s.runtimes[alias].root)
  }

  lemma CompleteAnswers(s: State, root: string, alias: string, starts: bool)
    requires s.queue != []
    ensures CompleteAdd(s, root, alias, starts).done ==
      s.done + [(s.queue[0], if |s.runtimes| < MAX_LIVE_PROJECTS && alias !in s.runtimes && starts then Added(alias) else Refused)]
  {
  }

  lemma EvictingAddIsAnswered(key: RootKey, s: State, env: AddEnv, more: seq<Op>, shutdownOk: bool, starts: bool)
    requires Inv(key, s) && Enabled(s, StartAdd(env)) && Holder(key, s.runtimes, s.queue[0].root).None?
    requires env.hasDir && env.alias.Some? && MakesWay(s, env, env.alias.value)
    ensures Turn(key, s, StartAdd(env), more, shutdownOk, starts).done
         == s.done + [(s.queue[0], if starts then Added(env.alias.value) else Refused)]
  {
    var alias := env.alias.value;
    var s1 := AfterStartAdd(key, s, env);
    assert s1.phase == Retiring(s.runtimes[alias], Some(s.queue[0].root)) && s.runtimes[alias].alias == alias;
    var rest := s1.(runtimes := s.runtimes - {alias}, queue := s.queue + more);
    assert rest.runtimes.Keys == s.runtimes.Keys - {alias};
    CompleteAnswers(rest, s.queue[0].root, alias, starts);
  }

  /** What an add is answered, for a directory that nobody serves. */
  lemma AddIsAnswered(key: RootKey, s: State, env: AddEnv, more: seq<Op>, shutdownOk: bool, starts: bool)
    requires Inv(key, s) && Enabled(s, StartAdd(env)) && Holder(key, s.runtimes, s.queue[0].root).None?
    ensures Turn(key, s, StartAdd(env), more, shutdownOk, starts).done == s.done + [(s.queue[0],
      if !env.hasDir || env.alias.None? then Refused
      else if MakesWay(s, env, env.alias.value) then if starts then Added(env.alias.value) else Refused
      else if |s.runtimes| < MAX_LIVE_PROJECTS && env.alias.value !in s.runtimes && env.starts then Added(env.alias.value)
      else Refused)]
  {
    if env.hasDir && env.alias.Some? {
      if MakesWay(s, env, env.alias.value) {
        EvictingAddIsAnswered(key, s, env, more, shutdownOk, starts);
      } else {
        CompleteAnswers(s, s.queue[0].root, env.alias.value, env.starts);
      }
    }
  }

  /** A directory that nobody serves is added under an alias if and only if it can be served, the registry
      answers that alias, nobody holds it or the holder makes way, there is room, and the project starts. */
  lemma AddSucceedsIff(key: RootKey, s: State, env: AddEnv, more: seq<Op>, shutdownOk: bool, starts: bool, alias: string)
    requires Inv(key, s) && Enabled(s, StartAdd(env))
    requires forall a :: a in s.runtimes ==> key(s.runtimes[a].root) != key(s.queue[0].root)
    ensures var s' := Turn(key, s, StartAdd(env), more, shutdownOk, starts);
      && |s'.done| == |s.done| + 1 && s'.done[|s.done|].0 == s.queue[0]
      && (s'.done[|s.done|].1 == Added(alias) <==>
          && env.hasDir && env.alias == Some(alias)
          && (if MakesWay(s, env, alias) then starts
              else alias !in s.runtimes && |s.runtimes| < MAX_LIVE_PROJECTS && env.starts))
      && (s'.done[|s.done|].1.Added? || s'.done[|s.done|].1 == Refused)
  {
    AddIsAnswered(key, s, env, more, shutdownOk, starts);
  }

  /** A directory that is served already is answered with the alias it is served under. */
  lemma ServedRootIsAnswered(key: RootKey, s: State, env: AddEnv, more: seq<Op>, shutdownOk: bool, starts: bool, alias: string)
    requires Inv(key, s) && Enabled(s, StartAdd(env))
    requires alias in s.runtimes && key(s.runtimes[alias].root) == key(s.queue[0].root)
    ensures Turn(key, s, StartAdd(env), more, shutdownOk, starts).done == s.done + [(s.queue[0], AlreadyServed(alias))]
  {
  }

  /** A removal is answered by what its name stands for: nothing, the primary, or a runtime whose shutdown
      then tells whether it was removed or refused. */
  lemma RemoveIsAnswered(key: RootKey, s: State, more: seq<Op>, shutdownOk: bool, starts: bool)
    requires Inv(key, s) && Enabled(s, StartRemove)
    ensures var s', name := Turn(key, s, StartRemove, more, shutdownOk, starts), s.queue[0].name;
      && |s'.done| == |s.done| + 1 && s'.done[|s.done|].0 == s.queue[0]
      && (s'.done[|s.done|].1 == NotFound <==> forall a :: !Names(key, s.runtimes, name, a))
      && (s'.done[|s.done|].1 == Removed <==> shutdownOk && exists a :: Names(key, s.runtimes, name, a) && a != s.primary)
      && s'.done[|s.done|].1 in {NotFound, Removed, Refused}
  {
    var name := s.queue[0].name;
    var target := if name in s.runtimes then Some(name) else Holder(key, s.runtimes, name);
    forall a | Names(key, s.runtimes, name, a)
      ensures target == Some(a)
    {
    }
    if target.Some? {
      assert Names(key, s.runtimes, name, target.value);
    }
  }

  /** The state after the first `n` steps; a step that is not enabled does not happen. */
  ghost function After(key: RootKey, s: State, steps: seq<Step>, n: nat): (r: State)
    requires n <= |steps| && Inv(key, s)
    ensures Inv(key, r)
  {
    if n == 0 then s
    else
      var before := After(key, s, steps, n - 1);
      if Enabled(before, steps[n - 1]) then
        StepKeepsInv(key, before, steps[n - 1]);
        Next(key, before, steps[n - 1])
      else before
  }

  /** The primary is still served by the runtime it started with. */
  ghost predicate SamePrimary(s: State, r: State) {
    && r.primary == s.primary && s.primary in s.runtimes
    && s.primary in r.runtimes && r.runtimes[s.primary] == s.runtimes[s.primary]
  }

  lemma StepKeepsPrimary(key: RootKey, s0: State, s: State, step: Step)
    requires Inv(key, s) && Enabled(s, step) && SamePrimary(s0, s)
    ensures SamePrimary(s0, Next(key, s, step))
  {
    OnlyRetiredDisappear(key, s, step, s.primary);
    assert s.phase.Retiring? ==> s.phase.runtime.alias != s.primary;
  }

  lemma {:induction false} PrimaryIsForever(key: RootKey, s: State, steps: seq<Step>, n: nat)
    requires n <= |steps| && Inv(key, s)
    ensures SamePrimary(s, After(key, s, steps, n))
  {
    if n > 0 {
      PrimaryIsForever(key, s, steps, n - 1);
      var before := After(key, s, steps, n - 1);
      if Enabled(before, steps[n - 1]) {
        StepKeepsPrimary(key, s, before, steps[n - 1]);
      }
    }
  }

  /** At most 64 runtimes with distinct roots; requests reach only runtimes, and
      between mutations exactly the runtimes. */
  ghost predicate Safe(key: RootKey, s: State) {
    && |s.runtimes| <= MAX_LIVE_PROJECTS && DistinctRoots(key, s.runtimes)
    && (forall a :: a in s.served ==> a in s.runtimes && s.served[a] == s.runtimes[a])
    && (s.phase.Quiet? ==> s.served == s.runtimes)
  }

  lemma InvIsSafe(key: RootKey, s: State)
    requires Inv(key, s)
    ensures Safe(key, s) && s.primary in s.served
  {
  }

  /** Over every run of adds and removes, failed starts and shutdowns included. */
  lemma EveryRunIsSafe(key: RootKey, s: State, steps: seq<Step>, n: nat)
    requires n <= |steps| && Inv(key, s)
    ensures Safe(key, After(key, s, steps, n)) && SamePrimary(s, After(key, s, steps, n))
    ensures s.primary in After(key, s, steps, n).served
  {
    PrimaryIsForever(key, s, steps, n);
    InvIsSafe(key, After(key, s, steps, n));
  }

  // ---------------------------------------------------------------- one at a time, in order

  function Submitted(steps: seq<Step>, n: nat): seq<Op>
    requires n <= |steps|
  {
    if n == 0 then []
    else Submitted(steps, n - 1) + (if steps[n - 1].Submit? then [steps[n - 1].op] else [])
  }

  function Ops(done: seq<(Op, Outcome)>, n: nat): seq<Op>
    requires n <= |done|
  {
    if n == 0 then [] else Ops(done, n - 1) + [done[n - 1].0]
  }

  lemma {:induction false} OpsPrefix(done: seq<(Op, Outcome)>, more: seq<(Op, Outcome)>, n: nat)
    requires n <= |done|
    ensures Ops(done + more, n) == Ops(done, n)
  {
    if n > 0 {
      OpsPrefix(done, more, n - 1);
    }
  }

  /** Answered operations, then waiting ones. */
  function Seen(s: State): seq<Op> {
    Ops(s.done, |s.done|) + s.queue
  }

  lemma EndIsFifo(s: State, s': State, outcome: Outcome)
    requires s.queue != [] && s'.queue == s.queue[1..] && s'.done == s.done + [(s.queue[0], outcome)]
    ensures Seen(s') == Seen(s)
  {
    OpsPrefix(s.done, [(s.queue[0], outcome)], |s.done|);
    assert s.queue == [s.queue[0]] + s.queue[1..];
  }

  /** A step ends the head of the queue, or begins to retire a runtime for it. */
  ghost predicate EndsHead(s: State, s': State) {
    || (s'.queue == s.queue && s'.done == s.done && s.phase.Quiet? && s'.phase.Retiring?)
    || exists outcome :: s.queue != [] && s'.queue == s.queue[1..] && s'.done == s.done + [(s.queue[0], outcome)]
  }

  lemma CompleteAddEndsHead(s: State, root: string, alias: string, starts: bool)
    requires s.queue != []
    ensures EndsHead(s, CompleteAdd(s, root, alias, starts))
  {
  }

  lemma StepEndsHead(key: RootKey, s: State, step: Step)
    requires DistinctRoots(key, s.runtimes) && Enabled(s, step) && !step.Submit?
    ensures EndsHead(s, Next(key, s, step))
  {
    match step {
      case StartAdd(env) =>
        if env.alias.Some? {
          CompleteAddEndsHead(s, s.queue[0].root, env.alias.value, env.starts);
        }
      case StartRemove =>
      case Retired(ok, starts) =>
        if s.phase.replacement.Some? {
          CompleteAddEndsHead(s.(runtimes := s.runtimes - {s.phase.runtime.alias}), s.phase.replacement.value, s.phase.runtime.alias, starts);
        }
    }
  }

  lemma StepIsFifo(key: RootKey, s: State, step: Step)
    requires Inv(key, s) && Enabled(s, step)
    ensures Seen(Next(key, s, step)) == Seen(s) + (if step.Submit? then [step.op] else [])
  {
    var s' := Next(key, s, step);
    if !step.Submit? {
      StepEndsHead(key, s, step);
      if s'.queue != s.queue || s'.done != s.done {
        var outcome :| s'.queue == s.queue[1..] && s'.done == s.done + [(s.queue[0], outcome)];
        EndIsFifo(s, s', outcome);
      }
    }
  }

  /** Operations are answered in the order of submission, each exactly once,
      whatever became of the ones before. */
  lemma {:induction false} MutationsAreFifo(key: RootKey, s: State, steps: seq<Step>, n: nat)
    requires n <= |steps| && Inv(key, s) && s.queue == [] && s.done == []
    ensures Seen(After(key, s, steps, n)) == Submitted(steps, n)
  {
    if n > 0 {
      MutationsAreFifo(key, s, steps, n - 1);
      var before := After(key, s, steps, n - 1);
      if Enabled(before, steps[n - 1]) {
        StepIsFifo(key, before, steps[n - 1]);
      }
    }
  }

  // ---------------------------------------------------------------- draining

  /** How many of the first `n` steps the daemon took for an operation. */
  ghost function Turns(key: RootKey, s: State, steps: seq<Step>, n: nat): nat
    requires n <= |steps| && Inv(key, s)
  {
    if n == 0 then 0
    else
      Turns(key, s, steps, n - 1)
        + if !steps[n - 1].Submit? && Enabled(After(key, s, steps, n - 1), steps[n - 1]) then 1 else 0
  }

  /** One for an operation that is half done. */
  function Begun(s: State): nat {
    if s.phase.Retiring? then 1 else 0
  }

  /** An operation takes at most two turns: one that retires a runtime, and one that ends it. */
  lemma TurnsPerAnswer(key: RootKey, s: State, step: Step)
    requires Inv(key, s) && Enabled(s, step)
    ensures var s' := Next(key, s, step);
      (if step.Submit? then 0 else 1) + Begun(s) <= 2 * (|s'.done| - |s.done|) + Begun(s')
  {
    if !step.Submit? {
      StepEndsHead(key, s, step);
    }
  }

  lemma {:induction false} TurnsAreBounded(key: RootKey, s: State, steps: seq<Step>, n: nat)
    requires n <= |steps| && Inv(key, s)
    ensures var end := After(key, s, steps, n);
      Turns(key, s, steps, n) + Begun(s) <= 2 * (|end.done| - |s.done|) + Begun(end)
  {
    if n > 0 {
      TurnsAreBounded(key, s, steps, n - 1);
      var before := After(key, s, steps, n - 1);
      if Enabled(before, steps[n - 1]) {
        TurnsPerAnswer(key, before, steps[n - 1]);
      }
    }
  }

  lemma NeverStuck(key: RootKey, s: State)
    requires Inv(key, s) && s.queue != []
    ensures exists step: Step :: !step.Submit? && Enabled(s, step)
  {
    var step :=
      if s.phase.Retiring? then Retired(true, true)
      else if s.queue[0].Add? then StartAdd(AddEnv(true, _ => true, None, true))
      else StartRemove;
    assert Enabled(s, step);
  }

  /** Over every run: while an operation waits some step of the daemon is possible, and two turns
      per waiting operation answer all of them, whatever is submitted in between. */
  lemma DrainsInBoundedSteps(key: RootKey, s: State, steps: seq<Step>, n: nat)
    requires n <= |steps| && Inv(key, s)
    ensures var end := After(key, s, steps, n);
      && (2 * |s.queue| <= Turns(key, s, steps, n) ==> |s.done| + |s.queue| <= |end.done|)
      && (end.queue != [] ==> exists step: Step :: !step.Submit? && Enabled(end, step))
  {
    TurnsAreBounded(key, s, steps, n);
    if After(key, s, steps, n).queue != [] {
      NeverStuck(key, After(key, s, steps, n));
    }
  }

  // ---------------------------------------------------------------- the startup loader

  datatype Entry = Entry(alias: string, root: string)

  /** The first `n` entries without those whose root is already listed. */
  function Distinct(key: RootKey, entries: seq<Entry>, n: nat): seq<Entry>
    requires n <= |entries|
  {
    if n == 0 then []
    else
      var listed := Distinct(key, entries, n - 1);
      if Lists(key, listed, |listed|, entries[n - 1].root) then listed else listed + [entries[n - 1]]
  }

  /** One of the first `n` entries has that root. */
  predicate Lists(key: RootKey, entries: seq<Entry>, n: nat, root: string)
    requires n <= |entries|
  {
    n > 0 && (key(entries[n - 1].root) == key(root) || Lists(key, entries, n - 1, root))
  }

  lemma {:induction false} ListsMeans(key: RootKey, entries: seq<Entry>, n: nat, root: string)
    requires n <= |entries|
    ensures Lists(key, entries, n, root) <==> exists i :: 0 <= i < n && key(entries[i].root) == key(root)
  {
    if n > 0 {
      ListsMeans(key, entries, n - 1, root);
    }
  }

  lemma {:induction false} DistinctMeans(key: RootKey, entries: seq<Entry>, n: nat)
    requires n <= |entries|
    ensures DistinctEntries(key, Distinct(key, entries, n))
    ensures n > 0 ==> |Distinct(key, entries, n)| > 0 && Distinct(key, entries, n)[0] == entries[0]
  {
    if n > 0 {
      DistinctMeans(key, entries, n - 1);
      var d := Distinct(key, entries, n - 1);
      ListsMeans(key, d, |d|, entries[n - 1].root);
    }
  }

  /** The first of the entries at its root. */
  ghost predicate IsFirst(key: RootKey, entries: seq<Entry>, i: nat) {
    i < |entries| && forall j :: 0 <= j < i ==> key(entries[j].root) != key(entries[i].root)
  }

  /** Exactly the first entry at each root is listed, in the order of the entries. */
  lemma {:induction false} DistinctAreFirsts(key: RootKey, entries: seq<Entry>, n: nat) returns (at: seq<nat>)
    requires n <= |entries|
    ensures |at| == |Distinct(key, entries, n)|
    ensures forall k :: 0 <= k < |at| ==> at[k] < n && Distinct(key, entries, n)[k] == entries[at[k]]
    ensures forall k, l :: 0 <= k < l < |at| ==> at[k] < at[l]
    ensures forall i :: 0 <= i < n ==> (i in at <==> IsFirst(key, entries, i))
  {
    at := [];
    if n > 0 {
      at := DistinctAreFirsts(key, entries, n - 1);
      var d := Distinct(key, entries, n - 1);
      ListsMeans(key, d, |d|, entries[n - 1].root);
      if Lists(key, d, |d|, entries[n - 1].root) {
        var k :| 0 <= k < |d| && key(d[k].root) == key(entries[n - 1].root);
        assert entries[at[k]] == d[k];
      } else {
        forall j | 0 <= j < n - 1
          ensures key(entries[j].root) != key(entries[n - 1].root)
        {
          var i := FirstAtRoot(key, entries, j);
          var k :| 0 <= k < |at| && at[k] == i;
          assert d[k] == entries[i];
        }
        at := at + [n - 1];
      }
    }
  }

  lemma {:induction false} FirstAtRoot(key: RootKey, entries: seq<Entry>, j: nat) returns (i: nat)
    requires j < |entries|
    ensures i <= j && IsFirst(key, entries, i) && key(entries[i].root) == key(entries[j].root)
    decreases j
  {
    if k :| 0 <= k < j && key(entries[k].root) == key(entries[j].root) {
      i := FirstAtRoot(key, entries, k);
    } else {
      i := j;
    }
  }

  /** The runtimes after the first `n` entries: those that have a directory, fit
      under the cap, bring a free alias and start. */
  function Load(hasDir: string -> bool, starts: string -> bool, entries: seq<Entry>, n: nat): Runtimes
    requires n <= |entries|
  {
    if n == 0 then map[]
    else
      var rs, e := Load(hasDir, starts, entries, n - 1), entries[n - 1];
      if !hasDir(e.root) || |rs| >= MAX_LIVE_PROJECTS || e.alias in rs || !starts(e.root) then rs
      else rs[e.alias := Runtime(e.alias, e.root)]
  }

  lemma {:induction false} LoadMeans(hasDir: string -> bool, starts: string -> bool, entries: seq<Entry>, n: nat)
    requires n <= |entries|
    ensures var rs := Load(hasDir, starts, entries, n);
      && |rs| <= MAX_LIVE_PROJECTS
      && (forall a :: a in rs ==> rs[a].alias == a && hasDir(rs[a].root) && starts(rs[a].root))
  {
    if n > 0 {
      LoadMeans(hasDir, starts, entries, n - 1);
    }
  }

  lemma {:induction false} LoadedIsListed(hasDir: string -> bool, starts: string -> bool, entries: seq<Entry>, n: nat, a: string) returns (i: nat)
    requires n <= |entries| && a in Load(hasDir, starts, entries, n)
    ensures i < n && entries[i] == Entry(a, Load(hasDir, starts, entries, n)[a].root)
  {
    if a in Load(hasDir, starts, entries, n - 1) {
      i := LoadedIsListed(hasDir, starts, entries, n - 1, a);
    } else {
      i := n - 1;
    }
  }

  /** The entry brings the alias, can be started, and comes while there is room. */
  predicate Brings(hasDir: string -> bool, starts: string -> bool, entries: seq<Entry>, i: nat, alias: string)
    requires i < |entries|
  {
    && entries[i].alias == alias && hasDir(entries[i].root) && starts(entries[i].root)
    && |Load(hasDir, starts, entries, i)| < MAX_LIVE_PROJECTS
  }

  /** Something is loaded under an alias if and only if some entry brings it. */
  lemma {:induction false} LoadedIff(hasDir: string -> bool, starts: string -> bool, entries: seq<Entry>, n: nat, alias: string)
    requires n <= |entries|
    ensures alias in Load(hasDir, starts, entries, n) <==> exists i :: 0 <= i < n && Brings(hasDir, starts, entries, i, alias)
  {
    if n > 0 {
      LoadedIff(hasDir, starts, entries, n - 1, alias);
      assert alias in Load(hasDir, starts, entries, n) <==>
        alias in Load(hasDir, starts, entries, n - 1) || Brings(hasDir, starts, entries, n - 1, alias);
    }
  }

  /** Nothing that could be served is left out, unless its alias is taken or the cap is reached. */
  lemma {:induction false} LoadIsComplete(hasDir: string -> bool, starts: string -> bool, entries: seq<Entry>, n: nat, i: nat)
    requires i < n <= |entries| && hasDir(entries[i].root) && starts(entries[i].root)
    ensures entries[i].alias in Load(hasDir, starts, entries, n) || |Load(hasDir, starts, entries, n)| == MAX_LIVE_PROJECTS
  {
    LoadMeans(hasDir, starts, entries, n - 1);
    if i < n - 1 {
      LoadIsComplete(hasDir, starts, entries, n - 1, i);
    }
  }

  lemma {:induction false} FirstIsKept(hasDir: string -> bool, starts: string -> bool, entries: seq<Entry>, n: nat)
    requires 0 < n <= |entries|
    ensures var rs, e := Load(hasDir, starts, entries, n), entries[0];
      hasDir(e.root) && starts(e.root) ==> e.alias in rs && rs[e.alias] == Runtime(e.alias, e.root)
  {
    if n > 1 {
      FirstIsKept(hasDir, starts, entries, n - 1);
    }
  }

  /** No two entries name one root. */
  ghost predicate DistinctEntries(key: RootKey, entries: seq<Entry>) {
    forall i, j :: 0 <= i < j < |entries| ==> key(entries[i].root) != key(entries[j].root)
  }

  lemma SameRootSameEntry(key: RootKey, entries: seq<Entry>, i: nat, j: nat)
    requires DistinctEntries(key, entries) && i < |entries| && j < |entries| && key(entries[i].root) == key(entries[j].root)
    ensures i == j
  {
  }

  lemma SameRootSameAlias(key: RootKey, hasDir: string -> bool, starts: string -> bool, entries: seq<Entry>, rs: Runtimes, a: string, b: string)
    requires DistinctEntries(key, entries) && rs == Load(hasDir, starts, entries, |entries|)
    requires a in rs && b in rs && key(rs[a].root) == key(rs[b].root)
    ensures a == b
  {
    var i := LoadedIsListed(hasDir, starts, entries, |entries|, a);
    var j := LoadedIsListed(hasDir, starts, entries, |entries|, b);
    SameRootSameEntry(key, entries, i, j);
  }

  lemma LoadIsDistinct(key: RootKey, hasDir: string -> bool, starts: string -> bool, entries: seq<Entry>, rs: Runtimes)
    requires DistinctEntries(key, entries) && rs == Load(hasDir, starts, entries, |entries|)
    ensures DistinctRoots(key, rs)
  {
    forall a, b | a in rs && b in rs && key(rs[a].root) == key(rs[b].root)
      ensures a == b
    {
      SameRootSameAlias(key, hasDir, starts, entries, rs, a, b);
    }
  }

  lemma {:induction false} DistinctGrows(key: RootKey, entries: seq<Entry>, m: nat, n: nat)
    requires m <= n <= |entries|
    ensures Distinct(key, entries, m) <= Distinct(key, entries, n)
  {
    if m < n {
      DistinctGrows(key, entries, m, n - 1);
    }
  }

  /** The primary and every registered project at another root; `None` when a config cannot be loaded. */
  method ListProjects(key: RootKey, primary: Entry, registry: seq<Entry>, configOk: string -> bool) returns (r: Option<seq<Entry>>)
    ensures var listed := Distinct(key, [primary] + registry, |registry| + 1);
      r == if forall i :: 0 < i < |listed| ==> configOk(listed[i].root) then Some(listed) else None
  {
    var toLoad := [primary];
    ghost var all := [primary] + registry;
    assert Distinct(key, all, 0) == [] && Distinct(key, all, 1) == [primary];
    for i := 0 to |registry|
      invariant toLoad == Distinct(key, all, i + 1) && |toLoad| > 0
      invariant forall j :: 0 < j < |toLoad| ==> configOk(toLoad[j].root)
    {
      var entry := registry[i];
      assert all[i + 1] == entry;
      var listed := false;
      for j := 0 to |toLoad|
        invariant listed == Lists(key, toLoad, j, entry.root)
      {
        if key(toLoad[j].root) == key(entry.root) {
          listed := true;
        }
      }
      if listed {
        continue;
      }
      if !configOk(entry.root) {
        DistinctGrows(key, all, i + 2, |all|);
        assert Distinct(key, all, i + 2)[|toLoad|] == entry;
        return None;
      }
      toLoad := toLoad + [entry];
    }
    r := Some(toLoad);
  }

  method LoadAll(hasDir: string -> bool, starts: string -> bool, toLoad: seq<Entry>) returns (runtimes: Runtimes)
    ensures runtimes == Load(hasDir, starts, toLoad, |toLoad|)
  {
    runtimes := map[];
    for i := 0 to |toLoad|
      invariant runtimes == Load(hasDir, starts, toLoad, i)
    {
      var p := toLoad[i];
      if !hasDir(p.root) {
        continue;
      }
      if |runtimes| >= MAX_LIVE_PROJECTS {
        continue;
      }
      if p.alias in runtimes {
        continue;
      }
      if starts(p.root) {
        runtimes := runtimes[p.alias := Runtime(p.alias, p.root)];
      }
    }
  }

  /** The loaded runtimes satisfy the invariant. The primary's alias is served if and only if some entry brings
      it, and then stands for the primary's root if and only if the primary itself could be started. */
  lemma LoadedIsSound(key: RootKey, primary: Entry, registry: seq<Entry>, hasDir: string -> bool, starts: string -> bool, toLoad: seq<Entry>)
    requires toLoad == Distinct(key, [primary] + registry, |registry| + 1)
    ensures var rs := Load(hasDir, starts, toLoad, |toLoad|);
      && |rs| <= MAX_LIVE_PROJECTS && DistinctRoots(key, rs) && (forall a :: a in rs ==> rs[a].alias == a)
      && (hasDir(primary.root) && starts(primary.root) ==> primary.alias in rs)
      && (primary.alias in rs <==> exists i :: 0 <= i < |toLoad| && Brings(hasDir, starts, toLoad, i, primary.alias))
      && (primary.alias in rs ==> (rs[primary.alias].root == primary.root <==> hasDir(primary.root) && starts(primary.root)))
  {
    DistinctMeans(key, [primary] + registry, |registry| + 1);
    LoadMeans(hasDir, starts, toLoad, |toLoad|);
    LoadIsDistinct(key, hasDir, starts, toLoad, Load(hasDir, starts, toLoad, |toLoad|));
    FirstIsKept(hasDir, starts, toLoad, |toLoad|);
    LoadedIff(hasDir, starts, toLoad, |toLoad|, primary.alias);
  }

  /** Such a startup: the primary at "/p" does not start, and "/q" is served under its alias. */
  lemma OtherRootStandsIn(key: RootKey, hasDir: string -> bool, starts: string -> bool)
    requires key("/p") != key("/q") && hasDir("/q") && starts("/q") && !starts("/p")
    ensures var toLoad := Distinct(key, [Entry("a", "/p")] + [Entry("a", "/q")], 2);
      Load(hasDir, starts, toLoad, |toLoad|) == map["a" := Runtime("a", "/q")]
  {
    var both := [Entry("a", "/p")] + [Entry("a", "/q")];
    assert Distinct(key, both, 1) == [both[0]];
    assert !Lists(key, [both[0]], 1, "/q");
    assert Distinct(key, both, 2) == both;
    assert Load(hasDir, starts, both, 1) == map[];
  }

  /** Startup fails when a project's config cannot be loaded or nothing holds the primary's alias. */
  method StartUp(key: RootKey, primary: Entry, registry: seq<Entry>, configOk: string -> bool, hasDir: string -> bool, starts: string -> bool)
    returns (r: Option<State>)
    ensures r.Some? ==> Inv(key, r.value) && r.value.primary == primary.alias && r.value.queue == [] && r.value.done == []
    ensures r.Some? ==> (r.value.runtimes[primary.alias].root == primary.root <==> hasDir(primary.root) && starts(primary.root))
    ensures var listed := Distinct(key, [primary] + registry, |registry| + 1);
      && (r.Some? ==> r.value.runtimes == Load(hasDir, starts, listed, |listed|))
      && (r.Some? <==>
          && (forall i :: 0 < i < |listed| ==> configOk(listed[i].root))
          && exists i :: 0 <= i < |listed| && Brings(hasDir, starts, listed, i, primary.alias))
  {
    var listed := ListProjects(key, primary, registry, configOk);
    if listed.None? {
      return None;
    }
    var runtimes := LoadAll(hasDir, starts, listed.value);
    LoadedIsSound(key, primary, registry, hasDir, starts, listed.value);
    if primary.alias !in runtimes {
      return None;
    }
    r := Some(State(primary.alias, runtimes, runtimes, Quiet, [], []));
  }

  // ---------------------------------------------------------------- the object

  class LiveProjects {
    const key: RootKey
    const primary: string
    var runtimes: Runtimes
    var served: Runtimes
    var phase: Phase
    var queue: seq<Op>
    var done: seq<(Op, Outcome)>

    ghost function View(): State
      reads this
    {
      State(primary, runtimes, served, phase, queue, done)
    }

    ghost predicate Valid()
      reads this
    {
      Inv(key, View())
    }

    constructor (key: RootKey, start: State)
      requires Inv(key, start)
      ensures Valid() && View() == start && this.key == key
    {
      this.key, primary, runtimes, served := key, start.primary, start.runtimes, start.served;
      phase, queue, done := start.phase, start.queue, start.done;
    }

    method Answer(outcome: Outcome)
      requires queue != []
      modifies this`phase, this`queue, this`done
      ensures View() == End(old(View()), outcome)
    {
      done := done + [(queue[0], outcome)];
      queue := queue[1..];
      phase := Quiet;
    }

    /** From the second cap check of an add to its end. */
    method CompleteLive(root: string, alias: string, starts: bool)
      requires queue != []
      modifies this
      ensures View() == CompleteAdd(old(View()), root, alias, starts)
    {
      if |runtimes| >= MAX_LIVE_PROJECTS {
        Answer(Refused);
        return;
      }
      if alias in runtimes {
        Answer(Refused);
        return;
      }
      if !starts {
        Answer(Refused);
        return;
      }
      var runtime := Runtime(alias, root);
      runtimes := runtimes[alias := runtime];
      served := served[alias := runtime];
      Answer(Added(alias));
    }

    /** An add up to its end, or up to the wait for a stale runtime. */
    method AddProjectLive(env: AddEnv)
      requires Valid() && phase.Quiet? && queue != [] && queue[0].Add?
      modifies this
      ensures View() == AfterStartAdd(key, old(View()), env) && Valid()
    {
      StartAddKeepsInv(key, View(), env);
      var root := queue[0].root;
      var already := Holder(key, runtimes, root);
      if already.Some? {
        Answer(AlreadyServed(already.value));
        return;
      }
      if !env.hasDir {
        Answer(Refused);
        return;
      }
      if |runtimes| >= MAX_LIVE_PROJECTS && !(exists a :: a in runtimes && IsStale(primary, runtimes, env.isDir, a)) {
        Answer(Refused);
        return;
      }
      if env.alias.None? {
        Answer(Refused);
        return;
      }
      var alias := env.alias.value;
      if IsStale(primary, runtimes, env.isDir, alias) && key(runtimes[alias].root) != key(root) {
        phase := Retiring(runtimes[alias], Some(root));
        served := served - {alias};
        return;
      }
      CompleteLive(root, alias, env.starts);
    }

    method RemoveProjectLive()
      requires Valid() && phase.Quiet? && queue != [] && queue[0].Remove?
      modifies this
      ensures View() == AfterStartRemove(key, old(View())) && Valid()
    {
      StepKeepsInv(key, View(), StartRemove);
      var name := queue[0].name;
      var target := if name in runtimes then Some(name) else Holder(key, runtimes, name);
      if target.None? {
        Answer(NotFound);
        return;
      }
      if target.value == primary {
        Answer(Refused);
        return;
      }
      phase := Retiring(runtimes[target.value], None);
      served := served - {target.value};
    }

    /** The rest of a retirement, once the runtime's shutdown has ended. */
    method FinishRetire(shutdownOk: bool, starts: bool)
      requires Valid() && phase.Retiring?
      modifies this
      ensures View() == AfterRetired(old(View()), shutdownOk, starts) && Valid()
    {
      RetiredKeepsInv(key, View(), shutdownOk, starts);
      var runtime, replacement := phase.runtime, phase.replacement;
      runtimes := runtimes - {runtime.alias};
      if replacement.Some? {
        CompleteLive(replacement.value, runtime.alias, starts);
      } else {
        Answer(if shutdownOk then Removed else Refused);
      }
    }
  }
}