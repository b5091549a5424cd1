/**
 * `run_containers`: for one date, every task of `run_data` in listed order is announced
 * and, unless this is a dry run, launched as a detached container, waited for, recorded
 * in the FIFO of retained container names, and the oldest retained container is removed
 * once the FIFO holds more than `max_stored` names.
 *
 * The container runtime is a `Launcher`: every command issued is appended to a trace of
 * events, and the launcher decides, from the trace so far, whether the command succeeds.
 * A failing command aborts the batch, as `check=True` does.
 */
module Runner {
  import opened Wrappers
  import opened DateSequencer

  /** The environment of a task: literal variables in listed order, and environment files. */
  datatype EnvSpec = EnvSpec(variables: Option<seq<(string, string)>>, files: Option<seq<string>>)

  /** One entry of `run_data`: the container image to launch and its environment. */
  datatype Task = Task(container: string, envs: EnvSpec)

  /** One unit of work: a task run with one date. */
  datatype Unit = Unit(date: string, task: Task)

  /** What the batch does that can be observed: the announcement line and the runtime commands. */
  datatype Event =
    | Announce(container: string, date: string) // the "Running container ..." line
    | Run(name: string, argv: seq<string>)      // `docker run -d --name=<name> ...`
    | Wait(name: string)                        // `docker wait <name>`
    | Rm(name: string)                          // `docker rm <name>`

  /**
   * The container runtime and the clock: whether a command issued after the given trace
   * succeeds, and the nanosecond clock reading after the given trace.
   */
  datatype Launcher = Launcher(accepts: (seq<Event>, Event) -> bool, clock: seq<Event> -> nat)

  /** The settings of one batch: dry-run mode, the retention cap (`None` for unbounded) and the runtime. */
  datatype Config = Config(dryRun: bool, maxStored: Option<int>, launcher: Launcher)

  /** The state the batch threads through its loops: the retained names and everything issued so far. */
  datatype State = State(ids: seq<string>, trace: seq<Event>)

  /** Why a batch stopped early. */
  datatype Fault =
    | BadDates(error: DateError)   // a range descriptor or date did not parse
    | LaunchFailed(command: Event) // a runtime command failed

  datatype Outcome = Completed | Aborted(fault: Fault)

  /** The environment variable that carries the date into the container. */
  const DATE_VARIABLE: string := "CUSTOM_DATE"

  /** The literal variables of an environment; a missing entry has none. */
  function Variables(envs: EnvSpec): seq<(string, string)> {
    envs.variables.GetOr([])
  }

  /** The environment files of an environment; a missing entry has none. */
  function Files(envs: EnvSpec): seq<string> {
    envs.files.GetOr([])
  }

  /** A `-e K=V` pair for every literal variable, in listed order. */
  function VariableArgs(vars: seq<(string, string)>): seq<string> {
    if vars == [] then []
    else
      var (key, value) := vars[|vars| - 1];
      VariableArgs(vars[..|vars| - 1]) + ["-e", key + "=" + value]
  }

  /** An `--env-file=F` argument for every environment file, in listed order. */
  function FileArgs(files: seq<string>): seq<string> {
    if files == [] then [] else FileArgs(files[..|files| - 1]) + ["--env-file=" + files[|files| - 1]]
  }

  /** The environment arguments of a task: its variables, then its files. */
  function EnvArgs(envs: EnvSpec): seq<string> {
    VariableArgs(Variables(envs)) + FileArgs(Files(envs))
  }

  /** The variable arguments come in pairs: `-e` followed by `K=V`, in the order of the variables. */
  lemma {:induction false} VariableArgsShape(vars: seq<(string, string)>)
    ensures |VariableArgs(vars)| == 2 * |vars|
    ensures forall i :: 0 <= i < |vars| ==>
      VariableArgs(vars)[2 * i] == "-e" && VariableArgs(vars)[2 * i + 1] == vars[i].0 + "=" + vars[i].1
  {
    if vars != [] {
      var init := vars[..|vars| - 1];
      VariableArgsShape(init);
      assert forall i :: 0 <= i < |init| ==> vars[i] == init[i];
    }
  }

  /** One `--env-file=F` argument per file, in the order of the files. */
  lemma {:induction false} FileArgsShape(files: seq<string>)
    ensures |FileArgs(files)| == |files|
    ensures forall i :: 0 <= i < |files| ==> FileArgs(files)[i] == "--env-file=" + files[i]
  {
    if files != [] {
      FileArgsShape(files[..|files| - 1]);
    }
  }

  /** Building `env_data` as `run_containers` does: a loop over the variables, then one over the files. */
  method ComposeEnv(envs: EnvSpec) returns (envData: seq<string>)
    ensures envData == EnvArgs(envs)
  {
    envData := [];
    if envs.variables.Some? {
      var vars := envs.variables.value;
      var i := 0;
      while i < |vars|
        invariant 0 <= i <= |vars|
        invariant envData == VariableArgs(vars[..i])
      {
        envData := envData + ["-e", vars[i].0 + "=" + vars[i].1];
        assert vars[..i + 1][..i] == vars[..i];
        i := i + 1;
      }
      assert vars[..|vars|] == vars;
    }
    ghost var variableArgs := envData;
    if envs.files.Some? {
      var files := envs.files.value;
      var j := 0;
      while j < |files|
        invariant 0 <= j <= |files|
        invariant envData == variableArgs + FileArgs(files[..j])
      {
        envData := envData + ["--env-file=" + files[j]];
        assert files[..j + 1][..j] == files[..j];
        j := j + 1;
      }
      assert files[..|files|] == files;
    }
  }

  /** The decimal digit `d`. */
  function DigitChar(d: nat): char
    requires d < 10
  {
    "0123456789"[d]
  }

  /** `n` written in decimal, as an f-string writes an integer. */
  function Decimal(n: nat): string {
    if n < 10 then [DigitChar(n)] else Decimal(n / 10) + [DigitChar(n % 10)]
  }

  /** The container name `batch_<date>_<nanoseconds>`. */
  function ContainerName(date: string, nanos: nat): string {
    "batch_" + date + "_" + Decimal(nanos)
  }

  /** The `docker run` argument vector for one task and date. */
  function DockerRunArgs(name: string, date: string, task: Task): seq<string> {
    ["docker", "run", "-d", "--name=" + name, "-e", DATE_VARIABLE + "=" + date]
      + EnvArgs(task.envs) + [task.container]
  }

  /**
   * The exact shape of the argument vector: the fixed six-word prefix with the name and
   * the date, a `-e K=V` pair per variable, an `--env-file=F` per file, and the container
   * image last; hence its length 7 + 2 * |variables| + |files|.
   */
  lemma DockerRunArgsShape(name: string, date: string, task: Task)
    ensures var argv := DockerRunArgs(name, date, task);
      var vars, files := Variables(task.envs), Files(task.envs);
      && |argv| == 7 + 2 * |vars| + |files|
      && argv[..6] == ["docker", "run", "-d", "--name=" + name, "-e", "CUSTOM_DATE=" + date]
      && (forall i :: 0 <= i < |vars| ==>
            argv[6 + 2 * i] == "-e" && argv[7 + 2 * i] == vars[i].0 + "=" + vars[i].1)
      && (forall j :: 0 <= j < |files| ==> argv[6 + 2 * |vars| + j] == "--env-file=" + files[j])
      && argv[|argv| - 1] == task.container
  {
    DockerRunArgsFrame(name, date, task);
    DockerRunArgsEnv(name, date, task);
  }

  /** The fixed words of the argument vector: the six-word prefix, the image last, and the length. */
  lemma DockerRunArgsFrame(name: string, date: string, task: Task)
    ensures var argv := DockerRunArgs(name, date, task);
      && |argv| == 7 + 2 * |Variables(task.envs)| + |Files(task.envs)|
      && argv[..6] == ["docker", "run", "-d", "--name=" + name, "-e", "CUSTOM_DATE=" + date]
      && argv[|argv| - 1] == task.container
  {
    VariableArgsShape(Variables(task.envs));
    FileArgsShape(Files(task.envs));
    var prefix := ["docker", "run", "-d", "--name=" + name, "-e", DATE_VARIABLE + "=" + date];
    assert DATE_VARIABLE + "=" + date == "CUSTOM_DATE=" + date;
    ArgvLayout(prefix, VariableArgs(Variables(task.envs)), FileArgs(Files(task.envs)), task.container);
  }

  /** The environment words of the argument vector: a `-e K=V` pair per variable, then an `--env-file=F` per file. */
  lemma DockerRunArgsEnv(name: string, date: string, task: Task)
    ensures var argv := DockerRunArgs(name, date, task);
      var vars, files := Variables(task.envs), Files(task.envs);
      && |argv| == 7 + 2 * |vars| + |files|
      && (forall i :: 0 <= i < |vars| ==>
            argv[6 + 2 * i] == "-e" && argv[7 + 2 * i] == vars[i].0 + "=" + vars[i].1)
      && (forall j :: 0 <= j < |files| ==> argv[6 + 2 * |vars| + j] == "--env-file=" + files[j])
  {
    var vars, files := Variables(task.envs), Files(task.envs);
    var varArgs, fileArgs := VariableArgs(vars), FileArgs(files);
    VariableArgsShape(vars);
    FileArgsShape(files);
    var prefix := ["docker", "run", "-d", "--name=" + name, "-e", DATE_VARIABLE + "=" + date];
    var argv := DockerRunArgs(name, date, task);
    assert argv == prefix + varArgs + fileArgs + [task.container];
    ArgvLayout(prefix, varArgs, fileArgs, task.container);
    forall i | 0 <= i < |vars|
      ensures argv[6 + 2 * i] == "-e" && argv[7 + 2 * i] == vars[i].0 + "=" + vars[i].1
    {
      assert argv[6 + 2 * i] == varArgs[2 * i];
      assert argv[6 + (2 * i + 1)] == varArgs[2 * i + 1];
    }
    forall j | 0 <= j < |files|
      ensures argv[6 + 2 * |vars| + j] == "--env-file=" + files[j]
    {
      assert argv[6 + |varArgs| + j] == fileArgs[j];
    }
  }

  /** Where each part of a six-word prefix, two argument blocks and a last word sits in their concatenation. */
  lemma ArgvLayout(prefix: seq<string>, first: seq<string>, second: seq<string>, last: string)
    requires |prefix| == 6
    ensures var argv := prefix + first + second + [last];
      && |argv| == 7 + |first| + |second|
      && argv[..6] == prefix
      && (forall i :: 0 <= i < |first| ==> argv[6 + i] == first[i])
      && (forall j :: 0 <= j < |second| ==> argv[6 + |first| + j] == second[j])
      && argv[|argv| - 1] == last
  {
    var argv := prefix + first + second + [last];
    assert argv[..6] == prefix;
  }

  /** `len(container_ids) > max_containers`, where a missing cap is infinity. */
  function OverCap(count: nat, maxStored: Option<int>): bool {
    maxStored.Some? && count > maxStored.value
  }

  /** The most names a cap lets the FIFO keep (a negative cap keeps none). */
  function Limit(cap: int): nat {
    if cap < 0 then 0 else cap
  }

  /** The FIFO holds no more names than the cap allows. */
  predicate WithinCap(ids: seq<string>, maxStored: Option<int>) {
    maxStored.None? || |ids| <= Limit(maxStored.value)
  }

  /** How many of `launched` names the FIFO retains under the cap: all of them, or the cap. */
  function Retained(maxStored: Option<int>, launched: nat): nat {
    match maxStored
    case None => launched
    case Some(cap) => if launched < Limit(cap) then launched else Limit(cap)
  }

  /**
   * One iteration of `run_containers`' loop: announce, then (unless dry) run, wait,
   * record the name and prune the oldest name past the cap. A failing command is the
   * last event and aborts; a dry run only announces; the cap is never exceeded afterwards.
   */
  function TaskStep(st: State, u: Unit, cfg: Config): (r: (State, Outcome))
    ensures |r.0.trace| > |st.trace| && r.0.trace[..|st.trace|] == st.trace
    ensures r.0.trace[|st.trace|] == Announce(u.task.container, u.date)
    ensures cfg.dryRun ==> r == (State(st.ids, st.trace + [Announce(u.task.container, u.date)]), Completed)
    ensures !cfg.dryRun ==>
      var announced := st.trace + [Announce(u.task.container, u.date)];
      var name := ContainerName(u.date, cfg.launcher.clock(announced));
      |r.0.trace| >= |st.trace| + 2 && r.0.trace[|st.trace| + 1] == Run(name, DockerRunArgs(name, u.date, u.task))
    ensures r.1.Aborted? ==>
      && r.1.fault.LaunchFailed?
      && r.0.trace[|r.0.trace| - 1] == r.1.fault.command
      && !cfg.launcher.accepts(r.0.trace[..|r.0.trace| - 1], r.1.fault.command)
    ensures WithinCap(st.ids, cfg.maxStored) ==> WithinCap(r.0.ids, cfg.maxStored)
  {
    var announced := st.trace + [Announce(u.task.container, u.date)];
    if cfg.dryRun then (State(st.ids, announced), Completed)
    else
      var name := ContainerName(u.date, cfg.launcher.clock(announced));
      var run := Run(name, DockerRunArgs(name, u.date, u.task));
      var launched := announced + [run];
      if !cfg.launcher.accepts(announced, run) then (State(st.ids, launched), Aborted(LaunchFailed(run)))
      else
        var waited := launched + [Wait(name)];
        if !cfg.launcher.accepts(launched, Wait(name)) then
          (State(st.ids, waited), Aborted(LaunchFailed(Wait(name))))
        else
          var ids := st.ids + [name];
          if !OverCap(|ids|, cfg.maxStored) then (State(ids, waited), Completed)
          else
            var removal := Rm(ids[0]);
            var outcome := if cfg.launcher.accepts(waited, removal) then Completed else Aborted(LaunchFailed(removal));
            assert (waited + [removal])[..|waited|] == waited;
            (State(ids[1..], waited + [removal]), outcome)
  }

  /** Every unit in order, stopping at the first one that aborts. */
  function RunUnits(st: State, units: seq<Unit>, cfg: Config): (State, Outcome)
    decreases |units|
  {
    if units == [] then (st, Completed)
    else
      var r := TaskStep(st, units[0], cfg);
      if r.1.Aborted? then r else RunUnits(r.0, units[1..], cfg)
  }

  /** The units of one date: every task of `run_data`, in listed order. */
  function TasksFor(date: string, runData: seq<Task>): seq<Unit> {
    seq(|runData|, j requires 0 <= j < |runData| => Unit(date, runData[j]))
  }

  /** The units of a sequence of dates: date after date, every task for each. */
  function Units(dates: seq<string>, runData: seq<Task>): seq<Unit> {
    if dates == [] then [] else TasksFor(dates[0], runData) + Units(dates[1..], runData)
  }

  /** The announcements of the units, in order. */
  function AnnouncementsOf(units: seq<Unit>): seq<Event> {
    seq(|units|, i requires 0 <= i < |units| => Announce(units[i].task.container, units[i].date))
  }

  /** The names of the containers launched, in launch order. */
  function Launched(trace: seq<Event>): seq<string> {
    if trace == [] then [] else (if trace[0].Run? then [trace[0].name] else []) + Launched(trace[1..])
  }

  /** The names of the containers removed, in removal order. */
  function Removed(trace: seq<Event>): seq<string> {
    if trace == [] then [] else (if trace[0].Rm? then [trace[0].name] else []) + Removed(trace[1..])
  }

  /** The announcement lines, in order. */
  function Announced(trace: seq<Event>): seq<Event> {
    if trace == [] then [] else (if trace[0].Announce? then [trace[0]] else []) + Announced(trace[1..])
  }

  lemma {:induction false} LaunchedAppend(a: seq<Event>, b: seq<Event>)
    ensures Launched(a + b) == Launched(a) + Launched(b)
  {
    if a == [] {
      assert a + b == b;
    } else {
      var head := if a[0].Run? then [a[0].name] else [];
      assert (a + b)[0] == a[0] && (a + b)[1..] == a[1..] + b;
      assert Launched(a + b) == head + Launched(a[1..] + b);
      LaunchedAppend(a[1..], b);
    }
  }

  lemma {:induction false} RemovedAppend(a: seq<Event>, b: seq<Event>)
    ensures Removed(a + b) == Removed(a) + Removed(b)
  {
    if a == [] {
      assert a + b == b;
    } else {
      var head := if a[0].Rm? then [a[0].name] else [];
      assert (a + b)[0] == a[0] && (a + b)[1..] == a[1..] + b;
      assert Removed(a + b) == head + Removed(a[1..] + b);
      RemovedAppend(a[1..], b);
    }
  }

  lemma {:induction false} AnnouncedAppend(a: seq<Event>, b: seq<Event>)
    ensures Announced(a + b) == Announced(a) + Announced(b)
  {
    if a == [] {
      assert a + b == b;
    } else {
      var head := if a[0].Announce? then [a[0]] else [];
      assert (a + b)[0] == a[0] && (a + b)[1..] == a[1..] + b;
      assert Announced(a + b) == head + Announced(a[1..] + b);
      AnnouncedAppend(a[1..], b);
    }
  }

  /**
   * The FIFO is exactly the launched containers that have not been removed, oldest first,
   * and holds as many of them as the cap allows.
   */
  ghost predicate Retains(st: State, maxStored: Option<int>) {
    && Launched(st.trace) == Removed(st.trace) + st.ids
    && |st.ids| == Retained(maxStored, |Launched(st.trace)|)
  }

  /** The commands a live step issues when none fails: run, wait for the same container, and remove the oldest once over the cap. */
  function LiveCommands(st: State, u: Unit, cfg: Config): seq<Event> {
    var name := ContainerName(u.date, cfg.launcher.clock(st.trace + [Announce(u.task.container, u.date)]));
    var grown := st.ids + [name];
    [Run(name, DockerRunArgs(name, u.date, u.task)), Wait(name)]
      + (if OverCap(|grown|, cfg.maxStored) then [Rm(grown[0])] else [])
  }

  /**
   * The exact events of a live step: the announcement, then the commands in order
   * (`docker run`, `docker wait` on the container just started, and `docker rm` of the
   * oldest name when over the cap) up to and including the first one the runtime refuses.
   * The step completes iff the runtime accepts every command; an abort names the refused one.
   */
  lemma TaskStepEvents(st: State, u: Unit, cfg: Config)
    requires !cfg.dryRun
    ensures var full := [Announce(u.task.container, u.date)] + LiveCommands(st, u, cfg);
      var r := TaskStep(st, u, cfg);
      var issued := |r.0.trace| - |st.trace|;
      && 2 <= issued <= |full|
      && r.0.trace == st.trace + full[..issued]
      && (forall i :: 1 <= i < issued - 1 ==> cfg.launcher.accepts(st.trace + full[..i], full[i]))
      && (r.1.Completed? ==> issued == |full|)
      && (r.1.Aborted? ==> r.1.fault == LaunchFailed(full[issued - 1]))
      && (r.1.Completed? <==>
            forall i :: 1 <= i < |full| ==> cfg.launcher.accepts(st.trace + full[..i], full[i]))
  {
    var announce := Announce(u.task.container, u.date);
    var announced := st.trace + [announce];
    var name := ContainerName(u.date, cfg.launcher.clock(announced));
    var run := Run(name, DockerRunArgs(name, u.date, u.task));
    var grown := st.ids + [name];
    var full := [announce] + LiveCommands(st, u, cfg);
    assert full[..1] == [announce] && full[1] == run && full[2] == Wait(name);
    assert full[..2] == [announce, run] && full[..3] == [announce, run, Wait(name)];
    assert st.trace + full[..1] == announced;
    assert st.trace + full[..2] == announced + [run];
    assert st.trace + full[..3] == announced + [run] + [Wait(name)];
    if OverCap(|grown|, cfg.maxStored) {
      assert |full| == 4 && full[3] == Rm(grown[0]) && full[..4] == full;
      assert st.trace + full == announced + [run] + [Wait(name)] + [Rm(grown[0])];
    } else {
      assert |full| == 3 && full[..3] == full;
    }
  }

  /**
   * A completed live step appends the new name to the FIFO, and when that overflows the
   * cap drops exactly the oldest name and removes that container; the names that stay
   * keep their order.
   */
  lemma TaskStepFifo(st: State, u: Unit, cfg: Config)
    requires !cfg.dryRun && TaskStep(st, u, cfg).1.Completed?
    ensures var announced := st.trace + [Announce(u.task.container, u.date)];
      var name := ContainerName(u.date, cfg.launcher.clock(announced));
      var grown := st.ids + [name];
      var r := TaskStep(st, u, cfg).0;
      && Launched(r.trace) == Launched(st.trace) + [name]
      && (!OverCap(|grown|, cfg.maxStored) ==> r.ids == grown && Removed(r.trace) == Removed(st.trace))
      && (OverCap(|grown|, cfg.maxStored) ==> r.ids == grown[1..] && Removed(r.trace) == Removed(st.trace) + [grown[0]])
  {
    var announced := st.trace + [Announce(u.task.container, u.date)];
    var name := ContainerName(u.date, cfg.launcher.clock(announced));
    var run := Run(name, DockerRunArgs(name, u.date, u.task));
    var waited := announced + [run] + [Wait(name)];
    LiveEvents(st.trace, Announce(u.task.container, u.date), name, DockerRunArgs(name, u.date, u.task));
    if OverCap(|st.ids + [name]|, cfg.maxStored) {
      RemovalEvent(waited, (st.ids + [name])[0]);
    }
  }

  /** A single event launches the container it runs, and removes the container it removes. */
  lemma SingleEvent(e: Event)
    ensures Launched([e]) == (if e.Run? then [e.name] else [])
    ensures Removed([e]) == (if e.Rm? then [e.name] else [])
    ensures Announced([e]) == (if e.Announce? then [e] else [])
  {
    assert [e][0] == e && [e][1..] == [];
  }

  /** Announcing, running and waiting for one container launches it and removes nothing. */
  lemma LiveEvents(trace: seq<Event>, announce: Event, name: string, argv: seq<string>)
    requires announce.Announce?
    ensures Launched(trace + [announce] + [Run(name, argv)] + [Wait(name)]) == Launched(trace) + [name]
    ensures Removed(trace + [announce] + [Run(name, argv)] + [Wait(name)]) == Removed(trace)
  {
    var announced := trace + [announce];
    var launched := announced + [Run(name, argv)];
    SingleEvent(announce);
    SingleEvent(Run(name, argv));
    SingleEvent(Wait(name));
    LaunchedAppend(trace, [announce]);
    LaunchedAppend(announced, [Run(name, argv)]);
    LaunchedAppend(launched, [Wait(name)]);
    RemovedAppend(trace, [announce]);
    RemovedAppend(announced, [Run(name, argv)]);
    RemovedAppend(launched, [Wait(name)]);
  }

  /** Removing a container launches nothing and records that one removal. */
  lemma RemovalEvent(trace: seq<Event>, name: string)
    ensures Launched(trace + [Rm(name)]) == Launched(trace)
    ensures Removed(trace + [Rm(name)]) == Removed(trace) + [name]
  {
    SingleEvent(Rm(name));
    LaunchedAppend(trace, [Rm(name)]);
    RemovedAppend(trace, [Rm(name)]);
  }

  /** A completed step keeps the FIFO equal to the launched, not yet removed names, sized by the cap. */
  lemma TaskStepRetains(st: State, u: Unit, cfg: Config)
    requires Retains(st, cfg.maxStored) && TaskStep(st, u, cfg).1.Completed?
    ensures Retains(TaskStep(st, u, cfg).0, cfg.maxStored)
  {
    var announce := Announce(u.task.container, u.date);
    if cfg.dryRun {
      RetainsAfterAnnounce(st, announce, cfg.maxStored);
    } else {
      TaskStepFifo(st, u, cfg);
      var name := ContainerName(u.date, cfg.launcher.clock(st.trace + [announce]));
      RetainsAfterLaunch(st, TaskStep(st, u, cfg).0, name, cfg.maxStored);
    }
  }

  /** An announcement launches and removes nothing, so it keeps `Retains`. */
  lemma RetainsAfterAnnounce(st: State, announce: Event, maxStored: Option<int>)
    requires Retains(st, maxStored) && announce.Announce?
    ensures Retains(State(st.ids, st.trace + [announce]), maxStored)
  {
    SingleEvent(announce);
    LaunchedAppend(st.trace, [announce]);
    RemovedAppend(st.trace, [announce]);
  }

  /** Launching one container, then popping the oldest name when over the cap, keeps `Retains`. */
  lemma RetainsAfterLaunch(before: State, after: State, name: string, maxStored: Option<int>)
    requires Retains(before, maxStored)
    requires Launched(after.trace) == Launched(before.trace) + [name]
    requires !OverCap(|before.ids| + 1, maxStored) ==>
      after.ids == before.ids + [name] && Removed(after.trace) == Removed(before.trace)
    requires OverCap(|before.ids| + 1, maxStored) ==>
      after.ids == (before.ids + [name])[1..] && Removed(after.trace) == Removed(before.trace) + [(before.ids + [name])[0]]
    ensures Retains(after, maxStored)
  {
    var grown := before.ids + [name];
    RetainedGrows(maxStored, |Launched(before.trace)|);
    if OverCap(|grown|, maxStored) {
      assert Removed(before.trace) + [grown[0]] + grown[1..] == Removed(before.trace) + grown;
    }
  }

  /** One more launch keeps the retained count at the cap once it is reached, and grows it by one before. */
  lemma RetainedGrows(maxStored: Option<int>, launched: nat)
    ensures OverCap(Retained(maxStored, launched) + 1, maxStored) ==>
      Retained(maxStored, launched + 1) == Retained(maxStored, launched)
    ensures !OverCap(Retained(maxStored, launched) + 1, maxStored) ==>
      Retained(maxStored, launched + 1) == Retained(maxStored, launched) + 1
  {
  }

  /** Running units one list after another is running the concatenated list, up to the first abort. */
  lemma {:induction false} RunUnitsAppend(st: State, first: seq<Unit>, second: seq<Unit>, cfg: Config)
    ensures RunUnits(st, first + second, cfg) ==
      var r := RunUnits(st, first, cfg);
      if r.1.Aborted? then r else RunUnits(r.0, second, cfg)
    decreases |first|
  {
    if first == [] {
      assert first + second == second;
    } else {
      assert (first + second)[0] == first[0];
      assert (first + second)[1..] == first[1..] + second;
      var r := TaskStep(st, first[0], cfg);
      if r.1.Completed? {
        RunUnitsAppend(r.0, first[1..], second, cfg);
      }
    }
  }

  /**
   * An abort stops the batch: when the units abort, some unit `k` aborted after every
   * unit before it completed, and no unit after `k` was attempted.
   */
  lemma {:induction false} RunUnitsAbort(st: State, units: seq<Unit>, cfg: Config)
    requires RunUnits(st, units, cfg).1.Aborted?
    ensures RunUnits(st, units, cfg).1.fault.LaunchFailed?
    ensures exists k ::
      && 0 <= k < |units|
      && RunUnits(st, units[..k], cfg).1.Completed?
      && RunUnits(st, units, cfg) == RunUnits(st, units[..k + 1], cfg)
    decreases |units|
  {
    var r := TaskStep(st, units[0], cfg);
    assert RunUnits(st, units[..0], cfg).1.Completed?;
    if r.1.Completed? {
      RunUnitsAbort(r.0, units[1..], cfg);
      var k :| 0 <= k < |units[1..]|
        && RunUnits(r.0, units[1..][..k], cfg).1.Completed?
        && RunUnits(r.0, units[1..], cfg) == RunUnits(r.0, units[1..][..k + 1], cfg);
      RunUnitsCons(st, units, cfg, k + 1);
      RunUnitsCons(st, units, cfg, k + 2);
      assert RunUnits(st, units[..k + 1], cfg).1.Completed?
        && RunUnits(st, units, cfg) == RunUnits(st, units[..k + 2], cfg);
    } else {
      RunUnitsCons(st, units, cfg, 1);
      assert RunUnits(st, units, cfg) == RunUnits(st, units[..0 + 1], cfg);
    }
  }

  /** Running a non-empty prefix of the units: the first step, then the rest of the prefix. */
  lemma RunUnitsCons(st: State, units: seq<Unit>, cfg: Config, n: nat)
    requires 0 < n <= |units|
    ensures RunUnits(st, units[..n], cfg) ==
      var r := TaskStep(st, units[0], cfg);
      if r.1.Aborted? then r else RunUnits(r.0, units[1..][..n - 1], cfg)
  {
    assert units[..n][0] == units[0] && units[..n][1..] == units[1..][..n - 1];
  }

  /** A dry run completes, keeps the FIFO as it was and issues nothing but the announcements, in unit order. */
  lemma {:induction false} RunUnitsDryRun(st: State, units: seq<Unit>, cfg: Config)
    requires cfg.dryRun
    ensures RunUnits(st, units, cfg) == (State(st.ids, st.trace + AnnouncementsOf(units)), Completed)
    decreases |units|
  {
    if units != [] {
      var next := State(st.ids, st.trace + [Announce(units[0].task.container, units[0].date)]);
      assert TaskStep(st, units[0], cfg) == (next, Completed);
      RunUnitsDryRun(next, units[1..], cfg);
      assert AnnouncementsOf(units) == [Announce(units[0].task.container, units[0].date)] + AnnouncementsOf(units[1..]);
      assert next.trace + AnnouncementsOf(units[1..]) == st.trace + AnnouncementsOf(units);
    } else {
      assert st.trace + AnnouncementsOf(units) == st.trace;
    }
  }

  /** One step, complete or aborted, announces its unit once and nothing else. */
  lemma TaskStepAnnounces(st: State, u: Unit, cfg: Config)
    ensures Announced(TaskStep(st, u, cfg).0.trace) == Announced(st.trace) + [Announce(u.task.container, u.date)]
  {
    var announce := Announce(u.task.container, u.date);
    var announced := st.trace + [announce];
    SingleEvent(announce);
    AnnouncedAppend(st.trace, [announce]);
    if !cfg.dryRun {
      var name := ContainerName(u.date, cfg.launcher.clock(announced));
      var run := Run(name, DockerRunArgs(name, u.date, u.task));
      var launched := announced + [run];
      SingleEvent(run);
      AnnouncedAppend(announced, [run]);
      if cfg.launcher.accepts(announced, run) {
        var waited := launched + [Wait(name)];
        SingleEvent(Wait(name));
        AnnouncedAppend(launched, [Wait(name)]);
        var ids := st.ids + [name];
        if cfg.launcher.accepts(launched, Wait(name)) && OverCap(|ids|, cfg.maxStored) {
          SingleEvent(Rm(ids[0]));
          AnnouncedAppend(waited, [Rm(ids[0])]);
        }
      }
    }
  }

  /** When the units complete, every unit was announced exactly once, in unit order, in live mode too. */
  lemma {:induction false} RunUnitsAnnounced(st: State, units: seq<Unit>, cfg: Config)
    requires RunUnits(st, units, cfg).1.Completed?
    ensures Announced(RunUnits(st, units, cfg).0.trace) == Announced(st.trace) + AnnouncementsOf(units)
    decreases |units|
  {
    if units != [] {
      var r := TaskStep(st, units[0], cfg);
      TaskStepAnnounces(st, units[0], cfg);
      RunUnitsAnnounced(r.0, units[1..], cfg);
      AnnouncementsOfCons(units);
    }
  }

  /** The announcements of a non-empty unit list: the first unit's, then the rest's. */
  lemma AnnouncementsOfCons(units: seq<Unit>)
    requires units != []
    ensures AnnouncementsOf(units) == [Announce(units[0].task.container, units[0].date)] + AnnouncementsOf(units[1..])
  {
    assert units == [units[0]] + units[1..];
    AnnouncementsOfAppend([units[0]], units[1..]);
  }

  /** Units listed one after the other are announced one after the other. */
  lemma AnnouncementsOfAppend(first: seq<Unit>, second: seq<Unit>)
    ensures AnnouncementsOf(first + second) == AnnouncementsOf(first) + AnnouncementsOf(second)
  {
    var all := AnnouncementsOf(first + second);
    forall i | 0 <= i < |all|
      ensures all[i] == (AnnouncementsOf(first) + AnnouncementsOf(second))[i]
    {
      if i >= |first| {
        assert (first + second)[i] == second[i - |first|];
      }
    }
  }

  /** The cap holds after any run of units, whether it completes or aborts. */
  lemma {:induction false} RunUnitsKeepsCap(st: State, units: seq<Unit>, cfg: Config)
    requires WithinCap(st.ids, cfg.maxStored)
    ensures WithinCap(RunUnits(st, units, cfg).0.ids, cfg.maxStored)
    decreases |units|
  {
    if units != [] {
      var r := TaskStep(st, units[0], cfg);
      if r.1.Completed? {
        RunUnitsKeepsCap(r.0, units[1..], cfg);
      }
    }
  }

  /**
   * Retention across completed units: the FIFO remains exactly the launched containers not
   * yet removed, in launch order, and holds the newest `min(cap, launched)` of them.
   */
  lemma {:induction false} RunUnitsRetains(st: State, units: seq<Unit>, cfg: Config)
    requires Retains(st, cfg.maxStored) && RunUnits(st, units, cfg).1.Completed?
    ensures Retains(RunUnits(st, units, cfg).0, cfg.maxStored)
    ensures var r := RunUnits(st, units, cfg).0;
      r.ids == Launched(r.trace)[|Launched(r.trace)| - |r.ids|..]
    decreases |units|
  {
    if units != [] {
      var r := TaskStep(st, units[0], cfg);
      TaskStepRetains(st, units[0], cfg);
      RunUnitsRetains(r.0, units[1..], cfg);
    }
    var r := RunUnits(st, units, cfg).0;
    assert Launched(r.trace)[|Removed(r.trace)|..] == r.ids;
  }

  /** Splitting the dates splits their units. */
  lemma {:induction false} UnitsAppend(first: seq<string>, second: seq<string>, runData: seq<Task>)
    ensures Units(first + second, runData) == Units(first, runData) + Units(second, runData)
  {
    if first == [] {
      assert first + second == second;
    } else {
      assert (first + second)[0] == first[0];
      assert (first + second)[1..] == first[1..] + second;
      UnitsAppend(first[1..], second, runData);
    }
  }

  /**
   * Unit `i * |runData| + j` is task `j` with date `i`: every task runs exactly once per
   * date, in listed order, before the next date begins.
   */
  lemma {:induction false} UnitsOrder(dates: seq<string>, runData: seq<Task>, i: nat, j: nat)
    requires i < |dates| && j < |runData|
    ensures |Units(dates, runData)| == |dates| * |runData|
    ensures i * |runData| + j < |Units(dates, runData)|
    ensures Units(dates, runData)[i * |runData| + j] == Unit(dates[i], runData[j])
    decreases i
  {
    var m := |runData|;
    UnitsLength(dates, runData);
    IndexInBlock(i, |dates|, m, j);
    var head, tail := TasksFor(dates[0], runData), Units(dates[1..], runData);
    assert Units(dates, runData) == head + tail;
    if i > 0 {
      UnitsOrder(dates[1..], runData, i - 1, j);
      assert (head + tail)[(i - 1) * m + j + m] == tail[(i - 1) * m + j];
    }
  }

  /** Index `j` of block `i` of `n` blocks of size `m` lies past the first block when `i > 0`, and inside all `n` blocks. */
  lemma IndexInBlock(i: nat, n: nat, m: nat, j: nat)
    requires i < n && j < m
    ensures i * m + j < n * m
    ensures i > 0 ==> (i - 1) * m + j + m == i * m + j
  {
    assert (i + 1) * m <= n * m;
  }

  lemma {:induction false} UnitsLength(dates: seq<string>, runData: seq<Task>)
    ensures |Units(dates, runData)| == |dates| * |runData|
  {
    if dates != [] {
      UnitsLength(dates[1..], runData);
      assert (|dates| - 1) * |runData| + |runData| == |dates| * |runData|;
    }
  }
}
