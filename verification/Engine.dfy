/**
 From a validated configuration to running threads: which configurations are accepted,
 and why the engine's constructor then finds a task for every logical cpu.
 */
module Engine {

  type Name = string
  type Task = int

  datatype Result<+T, +E> = Ok(value: T) | Err(error: E)

  /** A std::map<string, unsigned> in iteration order: each name once. */
  type Cpus = seq<(Name, nat)>

  predicate DistinctNames<T>(entries: seq<(Name, T)>) {
    forall i, j | 0 <= i < j < |entries| :: entries[i].0 != entries[j].0
  }

  /** The tasks in iteration order: a name may repeat. */
  type Tasks = seq<(Name, Task)>

  datatype Platform = Platform(total: nat, isolated: set<nat>, nohzFull: set<nat>, rcuNocbs: set<nat>)

  datatype ConfigError =
    | Empty
    | BiggerThanTotal(id: nat)
    | NoIsolation(id: nat)
    | NoNohzFull(id: nat)
    | NoRcuNocbs(id: nat)
    | SameCore(first: Name, second: Name, id: nat)

  // ---------------------------------------------------------------- cpus_config::parse

  predicate GoodCore(p: Platform, id: nat) {
    id < p.total && id in p.isolated && id in p.nohzFull && id in p.rcuNocbs
  }

  /** Each of the first n entries names a usable core no earlier entry uses. */
  predicate GoodUpTo(p: Platform, cfg: Cpus, n: nat)
    requires n <= |cfg|
  {
    forall i | 0 <= i < n :: GoodCore(p, cfg[i].1) && forall j | 0 <= j < i :: cfg[j].1 != cfg[i].1
  }

  predicate GoodCores(p: Platform, cfg: Cpus) {
    GoodUpTo(p, cfg, |cfg|)
  }

  /** One of the first n entries is (name, id). */
  predicate Listed(cfg: Cpus, n: nat, name: Name, id: nat)
    requires n <= |cfg|
  {
    exists j | 0 <= j < n :: cfg[j] == (name, id)
  }

  /** The first check entry k fails, in the order the checks are made. */
  predicate Explains(p: Platform, cfg: Cpus, k: nat, e: ConfigError)
    requires k < |cfg|
  {
    var (name, id) := cfg[k];
    match e
    case Empty => false
    case BiggerThanTotal(i) => i == id && id >= p.total
    case NoIsolation(i) => i == id && id < p.total && id !in p.isolated
    case NoNohzFull(i) => i == id && id < p.total && id in p.isolated && id !in p.nohzFull
    case NoRcuNocbs(i) => i == id && id < p.total && id in p.isolated && id in p.nohzFull && id !in p.rcuNocbs
    case SameCore(first, second, i) => i == id && GoodCore(p, id) && second == name && Listed(cfg, k, first, id)
  }

  /** An entry that fails a check makes the configuration bad. */
  lemma {:induction false} ExplainedIsBad(p: Platform, cfg: Cpus, k: nat, e: ConfigError)
    requires k < |cfg| && Explains(p, cfg, k, e)
    ensures !GoodCores(p, cfg)
  {
    if e.SameCore? {
      var j :| 0 <= j < k && cfg[j] == (e.first, cfg[k].1);
      assert cfg[j].1 == cfg[k].1;
    }
  }

  method Parse(cfg: Cpus, p: Platform) returns (r: Result<Cpus, ConfigError>)
    requires DistinctNames(cfg)
    ensures r.Ok? <==> cfg != [] && GoodCores(p, cfg)
    ensures r.Ok? ==> r.value == cfg
    ensures cfg == [] ==> r == Err(Empty)
    ensures r.Err? && cfg != [] ==>
              exists k: nat :: k < |cfg| && GoodUpTo(p, cfg, k) && Explains(p, cfg, k, r.error)
  {
    if cfg == [] {
      return Err(Empty);
    }
    var uniq: map<nat, Name> := map[];
    var i := 0;
    while i < |cfg|
      invariant 0 <= i <= |cfg| && GoodUpTo(p, cfg, i)
      invariant forall id | id in uniq :: Listed(cfg, i, uniq[id], id)
      invariant forall j | 0 <= j < i :: cfg[j].1 in uniq
    {
      var (name, id) := cfg[i];
      var error := Empty;
      if id >= p.total {
        error := BiggerThanTotal(id);
      } else if id !in p.isolated {
        error := NoIsolation(id);
      } else if id !in p.nohzFull {
        error := NoNohzFull(id);
      } else if id !in p.rcuNocbs {
        error := NoRcuNocbs(id);
      } else if id in uniq {
        error := SameCore(uniq[id], name, id);
      }
      if error != Empty {
        ExplainedIsBad(p, cfg, i, error);
        return Err(error);
      }
      uniq := uniq[id := name];
      forall id' | id' in uniq ensures Listed(cfg, i + 1, uniq[id'], id') {
        if id' == id { assert cfg[i] == (name, id); }
      }
      i := i + 1;
    }
    r := Ok(cfg);
  }

  // ---------------------------------------------------------------- task_storage

  class TaskStorage {
    var tasks: Tasks

    constructor ()
      ensures tasks == []
    {
      tasks := [];
    }

    method AddTask(name: Name, task: Task)
      modifies this
      ensures tasks == old(tasks) + [(name, task)]
    {
      tasks := tasks + [(name, task)];
    }

    /** erase_if by name, then emplace: all tasks of that name give way to one, the others stay in order. */
    method ReplaceTask(name: Name, task: Task)
      modifies this
      ensures tasks == Without(old(tasks), name) + [(name, task)]
    {
      var kept: Tasks := [];
      var i := 0;
      while i < |tasks|
        invariant 0 <= i <= |tasks| && tasks == old(tasks)
        invariant kept == Without(tasks[..i], name)
      {
        assert tasks[..i + 1][..i] == tasks[..i];
        if tasks[i].0 != name {
          kept := kept + [tasks[i]];
        }
        i := i + 1;
      }
      assert tasks[..|tasks|] == tasks;
      tasks := kept + [(name, task)];
    }
  }

  function Without(tasks: Tasks, name: Name): Tasks {
    if tasks == [] then []
    else
      var last := tasks[|tasks| - 1];
      Without(tasks[..|tasks| - 1], name) + (if last.0 == name then [] else [last])
  }

  /** After ReplaceTask exactly one task has the name, and every other entry survives. */
  lemma {:induction false} WithoutMeaning(tasks: Tasks, name: Name)
    ensures forall t :: t in Without(tasks, name) <==> t in tasks && t.0 != name
    ensures DistinctNames(tasks) ==> DistinctNames(Without(tasks, name))
  {
    if tasks != [] {
      var front, last := tasks[..|tasks| - 1], tasks[|tasks| - 1];
      WithoutMeaning(front, name);
      assert tasks == front + [last];
      var w := Without(front, name);
      if DistinctNames(tasks) {
        forall i | 0 <= i < |w| ensures w[i].0 != last.0 {
          assert w[i] in front;
        }
      }
    }
  }

  /** Erasing by name takes every entry of that name and leaves each other one as often as it was there. */
  lemma {:induction false} WithoutCounts(tasks: Tasks, name: Name, t: (Name, Task))
    ensures multiset(Without(tasks, name))[t] == if t.0 == name then 0 else multiset(tasks)[t]
  {
    if tasks != [] {
      var front, last := tasks[..|tasks| - 1], tasks[|tasks| - 1];
      WithoutCounts(front, name, t);
      assert tasks == front + [last];
    }
  }

  // ---------------------------------------------------------------- engine::create and its constructor

  datatype EngineError = CountMismatch | Duplicated(name: Name) | NoLogicalCpu(name: Name)

  predicate HasCpu(cfg: Cpus, name: Name) {
    exists i | 0 <= i < |cfg| :: cfg[i].0 == name
  }

  /** A thread runs the task at this index of the storage, bound to this core. */
  datatype Thread = Thread(name: Name, core: nat, task: nat)

  predicate HasTask(tasks: Tasks, name: Name) {
    exists t | 0 <= t < |tasks| :: tasks[t].0 == name
  }

  /** What engine::create checks before it constructs the engine. */
  predicate Acceptable(cfg: Cpus, tasks: Tasks) {
    |cfg| == |tasks| && DistinctNames(tasks) && forall i | 0 <= i < |tasks| :: HasCpu(cfg, tasks[i].0)
  }

  /** One of the first n tasks has this name. */
  predicate NamedBefore(tasks: Tasks, n: nat, name: Name)
    requires n <= |tasks|
  {
    exists j | 0 <= j < n :: tasks[j].0 == name
  }

  /** The first n tasks have a cpu each and no two of them the same name. */
  predicate TasksOkUpTo(cfg: Cpus, tasks: Tasks, n: nat)
    requires n <= |tasks|
  {
    forall i | 0 <= i < n :: HasCpu(cfg, tasks[i].0) && !NamedBefore(tasks, i, tasks[i].0)
  }

  /** The first check task k fails, in the order the checks are made. */
  predicate TaskFails(cfg: Cpus, tasks: Tasks, k: nat, e: EngineError)
    requires k < |tasks|
  {
    match e
    case CountMismatch => false
    case Duplicated(name) => name == tasks[k].0 && NamedBefore(tasks, k, name)
    case NoLogicalCpu(name) => name == tasks[k].0 && !NamedBefore(tasks, k, name) && !HasCpu(cfg, name)
  }

  /** Why a configuration is rejected: the counts differ, or the first task that fails a check fails this one. */
  predicate Rejects(cfg: Cpus, tasks: Tasks, e: EngineError) {
    if |cfg| != |tasks| then e == CountMismatch
    else exists k: nat :: k < |tasks| && TasksOkUpTo(cfg, tasks, k) && TaskFails(cfg, tasks, k, e)
  }

  lemma {:induction false} FailedIsUnacceptable(cfg: Cpus, tasks: Tasks, k: nat, e: EngineError)
    requires k < |tasks| && TaskFails(cfg, tasks, k, e)
    ensures !Acceptable(cfg, tasks)
  {
    if e.Duplicated? {
      var j :| 0 <= j < k && tasks[j].0 == e.name;
      assert tasks[j].0 == tasks[k].0;
    }
  }

  method Validate(cfg: Cpus, tasks: Tasks) returns (error: Result<(), EngineError>)
    requires DistinctNames(cfg)
    ensures error.Ok? <==> Acceptable(cfg, tasks)
    ensures error == Err(CountMismatch) <==> |cfg| != |tasks|
    ensures error.Err? ==> Rejects(cfg, tasks, error.error)
  {
    if |cfg| != |tasks| {
      return Err(CountMismatch);
    }
    var seen: set<Name> := {};
    var i := 0;
    while i < |tasks|
      invariant 0 <= i <= |tasks| && TasksOkUpTo(cfg, tasks, i)
      invariant forall n | n in seen :: NamedBefore(tasks, i, n)
      invariant forall j | 0 <= j < i :: tasks[j].0 in seen
      invariant forall j, k | 0 <= j < k < i :: tasks[j].0 != tasks[k].0
    {
      var name := tasks[i].0;
      if name in seen {
        FailedIsUnacceptable(cfg, tasks, i, Duplicated(name));
        return Err(Duplicated(name));
      }
      seen := seen + {name};
      if !HasCpu(cfg, name) {
        FailedIsUnacceptable(cfg, tasks, i, NoLogicalCpu(name));
        return Err(NoLogicalCpu(name));
      }
      forall n | n in seen ensures NamedBefore(tasks, i + 1, n) {
        if n != name { assert NamedBefore(tasks, i, n); } else { assert tasks[i].0 == n; }
      }
      i := i + 1;
    }
    error := Ok(());
  }

  /** The constructor's loop over the cpus; `aborted` is its call of ::abort(). */
  method Construct(cfg: Cpus, tasks: Tasks) returns (threads: seq<Thread>, aborted: bool)
    ensures aborted <==> exists i | 0 <= i < |cfg| :: !HasTask(tasks, cfg[i].0)
    ensures !aborted ==> |threads| == |cfg| && forall i | 0 <= i < |cfg| :: Runs(cfg, tasks, i, threads[i])
  {
    threads, aborted := [], false;
    var i := 0;
    while i < |cfg|
      invariant 0 <= i <= |cfg| && |threads| == i
      invariant forall j | 0 <= j < i :: Runs(cfg, tasks, j, threads[j]) && HasTask(tasks, cfg[j].0)
    {
      var t := 0;
      while t < |tasks| && tasks[t].0 != cfg[i].0
        invariant 0 <= t <= |tasks| && forall u | 0 <= u < t :: tasks[u].0 != cfg[i].0
      {
        t := t + 1;
      }
      if t == |tasks| {
        assert !HasTask(tasks, cfg[i].0);
        return threads, true;
      }
      threads := threads + [Thread(cfg[i].0, cfg[i].1, t)];
      i := i + 1;
    }
  }

  /** engine::create as a whole: once the validation accepts, the constructor's abort is unreachable. */
  method Create(cfg: Cpus, tasks: Tasks) returns (r: Result<seq<Thread>, EngineError>, aborted: bool)
    requires DistinctNames(cfg)
    ensures r.Ok? <==> Acceptable(cfg, tasks)
    ensures r == Err(CountMismatch) <==> |cfg| != |tasks|
    ensures r.Err? ==> Rejects(cfg, tasks, r.error)
    ensures !aborted
    ensures r.Ok? ==> Assigned(cfg, tasks, r.value)
  {
    var v := Validate(cfg, tasks);
    if v.Err? {
      return Err(v.error), false;
    }
    EveryCpuHasTask(cfg, tasks);
    var threads;
    threads, aborted := Construct(cfg, tasks);
    AssignmentIsBijective(cfg, tasks, threads);
    r := Ok(threads);
  }

  predicate Runs(cfg: Cpus, tasks: Tasks, i: nat, t: Thread) {
    i < |cfg| && t.name == cfg[i].0 && t.core == cfg[i].1 && t.task < |tasks| && tasks[t.task].0 == t.name
  }

  predicate Runner(threads: seq<Thread>, t: nat) {
    exists i | 0 <= i < |threads| :: threads[i].task == t
  }

  /** One thread per configured cpu, on its core, and every task runs in exactly one of them. */
  predicate Assigned(cfg: Cpus, tasks: Tasks, threads: seq<Thread>) {
    && |threads| == |cfg| == |tasks|
    && (forall i | 0 <= i < |threads| :: Runs(cfg, tasks, i, threads[i]))
    && (forall i, j | 0 <= i < j < |threads| :: threads[i].task != threads[j].task)
    && (forall t: nat | t < |tasks| :: Runner(threads, t))
  }

  function Names<T>(entries: seq<(Name, T)>): set<Name> {
    set i | 0 <= i < |entries| :: entries[i].0
  }

  /** One more entry is one more name. */
  lemma {:induction false} NamesMore<T>(front: seq<(Name, T)>, last: (Name, T))
    ensures Names(front + [last]) == Names(front) + {last.0}
  {
    var all := front + [last];
    assert all[|front|] == last;
    forall n ensures n in Names(all) <==> n in Names(front) + {last.0} {
      if n in Names(all) {
        var i :| 0 <= i < |all| && all[i].0 == n;
        if i < |front| { assert front[i].0 == n; }
      }
      if n in Names(front) {
        var i :| 0 <= i < |front| && front[i].0 == n;
        assert all[i].0 == n;
      }
    }
  }

  lemma {:induction false} NamesCount<T>(entries: seq<(Name, T)>)
    requires DistinctNames(entries)
    ensures |Names(entries)| == |entries|
  {
    if entries != [] {
      var front, last := entries[..|entries| - 1], entries[|entries| - 1];
      NamesCount(front);
      assert entries == front + [last];
      NamesMore(front, last);
      assert last.0 !in Names(front);
    }
  }

  lemma SameSizeSubset<T>(a: set<T>, b: set<T>)
    requires a <= b && |a| == |b|
    ensures a == b
  {
    assert |b - a| == |b| - |a|;
  }

  /** Pigeonhole: as many tasks as cpus, no name twice, all of them cpus; so no cpu is left without. */
  lemma {:induction false} EveryCpuHasTask(cfg: Cpus, tasks: Tasks)
    requires DistinctNames(cfg) && DistinctNames(tasks) && |cfg| == |tasks|
    requires forall i | 0 <= i < |tasks| :: HasCpu(cfg, tasks[i].0)
    ensures forall i | 0 <= i < |cfg| :: HasTask(tasks, cfg[i].0)
  {
    NamesCount(cfg);
    NamesCount(tasks);
    forall n | n in Names(tasks) ensures n in Names(cfg) {
      var i :| 0 <= i < |tasks| && tasks[i].0 == n;
      assert HasCpu(cfg, tasks[i].0);
    }
    SameSizeSubset(Names(tasks), Names(cfg));
    forall i | 0 <= i < |cfg| ensures HasTask(tasks, cfg[i].0) {
      assert cfg[i].0 in Names(tasks);
    }
  }

  lemma {:induction false} AssignmentIsBijective(cfg: Cpus, tasks: Tasks, threads: seq<Thread>)
    requires DistinctNames(cfg) && DistinctNames(tasks) && |threads| == |cfg| == |tasks|
    requires forall i | 0 <= i < |tasks| :: HasCpu(cfg, tasks[i].0)
    requires forall i | 0 <= i < |threads| :: Runs(cfg, tasks, i, threads[i])
    ensures Assigned(cfg, tasks, threads)
  {
    forall i, j | 0 <= i < j < |threads| ensures threads[i].task != threads[j].task {
      assert cfg[i].0 != cfg[j].0;
    }
    forall t: nat | t < |tasks| ensures Runner(threads, t) {
      assert HasCpu(cfg, tasks[t].0);
      var i :| 0 <= i < |cfg| && cfg[i].0 == tasks[t].0;
      assert Runs(cfg, tasks, i, threads[i]);
      var u := threads[i].task;
      assert tasks[u].0 == tasks[t].0;
    }
  }

  /** Both validations together: the threads run on distinct, usable cores of the platform. */
  lemma {:induction false} AcceptedCoresAreDistinct(cfg: Cpus, p: Platform, tasks: Tasks, threads: seq<Thread>)
    requires GoodCores(p, cfg) && Assigned(cfg, tasks, threads)
    ensures forall i | 0 <= i < |threads| :: GoodCore(p, threads[i].core)
    ensures forall i, j | 0 <= i < j < |threads| :: threads[i].core != threads[j].core
  {
    forall i | 0 <= i < |threads| ensures GoodCore(p, threads[i].core) {
      assert Runs(cfg, tasks, i, threads[i]);
    }
    forall i, j | 0 <= i < j < |threads| ensures threads[i].core != threads[j].core {
      assert Runs(cfg, tasks, i, threads[i]) && Runs(cfg, tasks, j, threads[j]);
      assert GoodCore(p, cfg[j].1);
    }
  }
}
