/**
 * `main`: the explicit dates first, then every range descriptor in listed order, each
 * parsed and expanded just before its dates run; the list of retained container names is
 * threaded through every call of `run_containers`.
 */
module Driver {
  import opened Wrappers
  import opened DateSequencer
  import opened Runner

  /** The second loop of `main`: for each range, parse it, expand it, and run its dates. */
  function RunRanges(st: State, cfg: Config, runData: seq<Task>, ranges: seq<string>, cal: Calendar): (State, Outcome)
    decreases |ranges|
  {
    if ranges == [] then (st, Completed)
    else
      match ExpandRange(ranges[0], cal)
      case Failure(e) => (st, Aborted(BadDates(e)))
      case Success(ds) =>
        var r := RunUnits(st, Units(ds, runData), cfg);
        if r.1.Aborted? then r else RunRanges(r.0, cfg, runData, ranges[1..], cal)
  }

  /** Both loops of `main`: the explicit dates, then the ranges. */
  function RunBatch(st: State, cfg: Config, runData: seq<Task>, dates: seq<string>, ranges: seq<string>, cal: Calendar): (State, Outcome) {
    var r := RunUnits(st, Units(dates, runData), cfg);
    if r.1.Aborted? then r else RunRanges(r.0, cfg, runData, ranges, cal)
  }

  lemma {:induction false} RunRangesFollowPlan(st: State, cfg: Config, runData: seq<Task>, ranges: seq<string>, cal: Calendar)
    requires RangePlan(ranges, cal).Success?
    ensures RunRanges(st, cfg, runData, ranges, cal) == RunUnits(st, Units(RangePlan(ranges, cal).value, runData), cfg)
    decreases |ranges|
  {
    if ranges != [] {
      var head := ExpandRange(ranges[0], cal).value;
      var tail := RangePlan(ranges[1..], cal).value;
      assert RangePlan(ranges, cal).value == head + tail;
      UnitsAppend(head, tail, runData);
      RunUnitsAppend(st, Units(head, runData), Units(tail, runData), cfg);
      var r := RunUnits(st, Units(head, runData), cfg);
      if r.1.Completed? {
        RunRangesFollowPlan(r.0, cfg, runData, ranges[1..], cal);
      }
    }
  }

  /**
   * Expanding ranges lazily, interleaved with the runs, does the same as running the units
   * of the whole date plan: when every range expands, the batch runs every task for every
   * date of the plan, in plan order, and stops at the first failing command.
   */
  lemma BatchFollowsDatePlan(st: State, cfg: Config, runData: seq<Task>, dates: seq<string>, ranges: seq<string>, cal: Calendar)
    requires DatePlan(dates, ranges, cal).Success?
    ensures RunBatch(st, cfg, runData, dates, ranges, cal)
         == RunUnits(st, Units(DatePlan(dates, ranges, cal).value, runData), cfg)
  {
    var rs := RangePlan(ranges, cal).value;
    assert DatePlan(dates, ranges, cal).value == dates + rs;
    UnitsAppend(dates, rs, runData);
    RunUnitsAppend(st, Units(dates, runData), Units(rs, runData), cfg);
    var r := RunUnits(st, Units(dates, runData), cfg);
    if r.1.Completed? {
      RunRangesFollowPlan(r.0, cfg, runData, ranges, cal);
    }
  }

  /**
   * A range that does not expand stops the batch with its error, unless a runtime
   * command failed before it; in a dry run nothing fails, so the error is the range's.
   */
  lemma {:induction false} RunRangesDateError(st: State, cfg: Config, runData: seq<Task>, ranges: seq<string>, cal: Calendar)
    requires RangePlan(ranges, cal).Failure?
    ensures var o := RunRanges(st, cfg, runData, ranges, cal).1;
      o == Aborted(BadDates(RangePlan(ranges, cal).error)) || (o.Aborted? && o.fault.LaunchFailed?)
    ensures cfg.dryRun ==>
      RunRanges(st, cfg, runData, ranges, cal).1 == Aborted(BadDates(RangePlan(ranges, cal).error))
    decreases |ranges|
  {
    var head := ExpandRange(ranges[0], cal);
    if head.Success? {
      var r := RunUnits(st, Units(head.value, runData), cfg);
      if cfg.dryRun {
        RunUnitsDryRun(st, Units(head.value, runData), cfg);
      }
      if r.1.Aborted? {
        RunUnitsAbort(st, Units(head.value, runData), cfg);
      } else {
        RunRangesDateError(r.0, cfg, runData, ranges[1..], cal);
      }
    }
  }

  /** The batch fails when the date plan does: with the plan's error, unless a runtime command failed first. */
  lemma BatchDateError(st: State, cfg: Config, runData: seq<Task>, dates: seq<string>, ranges: seq<string>, cal: Calendar)
    requires DatePlan(dates, ranges, cal).Failure?
    ensures var o := RunBatch(st, cfg, runData, dates, ranges, cal).1;
      o == Aborted(BadDates(DatePlan(dates, ranges, cal).error)) || (o.Aborted? && o.fault.LaunchFailed?)
    ensures cfg.dryRun ==>
      RunBatch(st, cfg, runData, dates, ranges, cal).1 == Aborted(BadDates(DatePlan(dates, ranges, cal).error))
  {
    var r := RunUnits(st, Units(dates, runData), cfg);
    if cfg.dryRun {
      RunUnitsDryRun(st, Units(dates, runData), cfg);
    }
    if r.1.Aborted? {
      RunUnitsAbort(st, Units(dates, runData), cfg);
    } else {
      RunRangesDateError(r.0, cfg, runData, ranges, cal);
    }
  }

  /**
   * In any mode, a range that does not expand is noticed only when the loop reaches it:
   * every date of the ranges before it runs first, and unless one of those runs fails,
   * the loop then stops with that range's error and issues nothing more.
   */
  lemma {:induction false} RunRangesBadRange(st: State, cfg: Config, runData: seq<Task>, ranges: seq<string>, cal: Calendar, k: nat)
    requires k < |ranges|
    requires RangePlan(ranges[..k], cal).Success? && ExpandRange(ranges[k], cal).Failure?
    ensures RunRanges(st, cfg, runData, ranges, cal)
         == var r := RunUnits(st, Units(RangePlan(ranges[..k], cal).value, runData), cfg);
            if r.1.Aborted? then r else (r.0, Aborted(BadDates(ExpandRange(ranges[k], cal).error)))
    decreases k
  {
    if k == 0 {
      assert Units([], runData) == [];
    } else {
      RangePlanPrefix(ranges, cal, k);
      assert ranges[1..][k - 1] == ranges[k];
      var head := ExpandRange(ranges[0], cal).value;
      var tail := RangePlan(ranges[1..][..k - 1], cal).value;
      UnitsAppend(head, tail, runData);
      RunUnitsAppend(st, Units(head, runData), Units(tail, runData), cfg);
      var r := RunUnits(st, Units(head, runData), cfg);
      if r.1.Completed? {
        RunRangesBadRange(r.0, cfg, runData, ranges[1..], cal, k - 1);
      }
    }
  }

  /**
   * The same for the whole batch: the explicit dates and the ranges before the bad one all
   * run first, and the batch stops with the bad range's error unless one of them failed.
   */
  lemma BatchBadRange(st: State, cfg: Config, runData: seq<Task>, dates: seq<string>, ranges: seq<string>, cal: Calendar, k: nat)
    requires k < |ranges|
    requires RangePlan(ranges[..k], cal).Success? && ExpandRange(ranges[k], cal).Failure?
    ensures RunBatch(st, cfg, runData, dates, ranges, cal)
         == var r := RunUnits(st, Units(dates + RangePlan(ranges[..k], cal).value, runData), cfg);
            if r.1.Aborted? then r else (r.0, Aborted(BadDates(ExpandRange(ranges[k], cal).error)))
  {
    var rs := RangePlan(ranges[..k], cal).value;
    UnitsAppend(dates, rs, runData);
    RunUnitsAppend(st, Units(dates, runData), Units(rs, runData), cfg);
    var r := RunUnits(st, Units(dates, runData), cfg);
    if r.1.Completed? {
      RunRangesBadRange(r.0, cfg, runData, ranges, cal, k);
    }
  }

  /** Ranges that all ran to completion all expanded. */
  lemma {:induction false} RunRangesCompleted(st: State, cfg: Config, runData: seq<Task>, ranges: seq<string>, cal: Calendar)
    requires RunRanges(st, cfg, runData, ranges, cal).1.Completed?
    ensures RangePlan(ranges, cal).Success?
    decreases |ranges|
  {
    if ranges != [] {
      var r := RunUnits(st, Units(ExpandRange(ranges[0], cal).value, runData), cfg);
      RunRangesCompleted(r.0, cfg, runData, ranges[1..], cal);
    }
  }

  /** In a dry run, a range that expands is announced, date after date, and the loop moves on. */
  lemma RunRangesDryStep(st: State, cfg: Config, runData: seq<Task>, ranges: seq<string>, cal: Calendar)
    requires cfg.dryRun && ranges != [] && ExpandRange(ranges[0], cal).Success?
    ensures RunRanges(st, cfg, runData, ranges, cal)
         == RunRanges(State(st.ids, st.trace + AnnouncementsOf(Units(ExpandRange(ranges[0], cal).value, runData))),
                      cfg, runData, ranges[1..], cal)
  {
    RunUnitsDryRun(st, Units(ExpandRange(ranges[0], cal).value, runData), cfg);
  }

  /** Announcing two blocks of dates one after the other announces their concatenation. */
  lemma AnnounceBoth(trace: seq<Event>, first: seq<string>, second: seq<string>, runData: seq<Task>)
    ensures trace + AnnouncementsOf(Units(first, runData)) + AnnouncementsOf(Units(second, runData))
         == trace + AnnouncementsOf(Units(first + second, runData))
  {
    UnitsAppend(first, second, runData);
    AnnouncementsOfAppend(Units(first, runData), Units(second, runData));
  }

  /** The dates of the first `k + 1` ranges: the first range's, then those of the next `k`. */
  lemma RangePlanPrefix(ranges: seq<string>, cal: Calendar, k: nat)
    requires 0 < k <= |ranges| && RangePlan(ranges[..k], cal).Success?
    ensures ExpandRange(ranges[0], cal).Success? && RangePlan(ranges[1..][..k - 1], cal).Success?
    ensures RangePlan(ranges[..k], cal).value
         == ExpandRange(ranges[0], cal).value + RangePlan(ranges[1..][..k - 1], cal).value
  {
    assert ranges[..k][0] == ranges[0] && ranges[..k][1..] == ranges[1..][..k - 1];
  }

  lemma {:induction false} RunRangesDryRunBadRange(st: State, cfg: Config, runData: seq<Task>, ranges: seq<string>, cal: Calendar, k: nat)
    requires cfg.dryRun && k < |ranges|
    requires RangePlan(ranges[..k], cal).Success? && ExpandRange(ranges[k], cal).Failure?
    ensures RunRanges(st, cfg, runData, ranges, cal)
         == (State(st.ids, st.trace + AnnouncementsOf(Units(RangePlan(ranges[..k], cal).value, runData))),
             Aborted(BadDates(ExpandRange(ranges[k], cal).error)))
    decreases k
  {
    if k == 0 {
      assert st.trace + AnnouncementsOf(Units([], runData)) == st.trace;
    } else {
      RangePlanPrefix(ranges, cal, k);
      assert ranges[1..][k - 1] == ranges[k];
      var head := ExpandRange(ranges[0], cal).value;
      var tail := RangePlan(ranges[1..][..k - 1], cal).value;
      RunRangesDryStep(st, cfg, runData, ranges, cal);
      var next := State(st.ids, st.trace + AnnouncementsOf(Units(head, runData)));
      RunRangesDryRunBadRange(next, cfg, runData, ranges[1..], cal, k - 1);
      AnnounceBoth(st.trace, head, tail, runData);
    }
  }

  /**
   * A range that does not parse is only noticed when the loop reaches it: in a dry run the
   * explicit dates and every earlier range have all been announced before the batch stops
   * with that range's error, and nothing is announced after it.
   */
  lemma BatchDryRunBadRange(st: State, cfg: Config, runData: seq<Task>, dates: seq<string>, ranges: seq<string>, cal: Calendar, k: nat)
    requires cfg.dryRun && k < |ranges|
    requires RangePlan(ranges[..k], cal).Success? && ExpandRange(ranges[k], cal).Failure?
    ensures RunBatch(st, cfg, runData, dates, ranges, cal)
         == (State(st.ids, st.trace + AnnouncementsOf(Units(dates + RangePlan(ranges[..k], cal).value, runData))),
             Aborted(BadDates(ExpandRange(ranges[k], cal).error)))
  {
    RunUnitsDryRun(st, Units(dates, runData), cfg);
    var next := State(st.ids, st.trace + AnnouncementsOf(Units(dates, runData)));
    RunRangesDryRunBadRange(next, cfg, runData, ranges, cal, k);
    AnnounceBoth(st.trace, dates, RangePlan(ranges[..k], cal).value, runData);
  }

  /**
   * A dry run of a well-formed batch completes, leaves the retained names as they were,
   * and issues exactly one announcement per (date, task) in plan order and nothing else.
   */
  lemma BatchDryRun(st: State, cfg: Config, runData: seq<Task>, dates: seq<string>, ranges: seq<string>, cal: Calendar)
    requires cfg.dryRun && DatePlan(dates, ranges, cal).Success?
    ensures RunBatch(st, cfg, runData, dates, ranges, cal)
         == (State(st.ids, st.trace + AnnouncementsOf(Units(DatePlan(dates, ranges, cal).value, runData))), Completed)
  {
    BatchFollowsDatePlan(st, cfg, runData, dates, ranges, cal);
    RunUnitsDryRun(st, Units(DatePlan(dates, ranges, cal).value, runData), cfg);
  }

  /**
   * After a batch that completes, the date plan existed, every unit of it was announced in
   * order, and the retained names are exactly the launched containers not yet removed,
   * the newest ones, as many as the cap allows.
   */
  lemma BatchRetains(st: State, cfg: Config, runData: seq<Task>, dates: seq<string>, ranges: seq<string>, cal: Calendar)
    requires Retains(st, cfg.maxStored)
    requires RunBatch(st, cfg, runData, dates, ranges, cal).1.Completed?
    ensures DatePlan(dates, ranges, cal).Success?
    ensures var r := RunBatch(st, cfg, runData, dates, ranges, cal).0;
      && Retains(r, cfg.maxStored)
      && Announced(r.trace) == Announced(st.trace) + AnnouncementsOf(Units(DatePlan(dates, ranges, cal).value, runData))
  {
    var r := RunUnits(st, Units(dates, runData), cfg);
    RunRangesCompleted(r.0, cfg, runData, ranges, cal);
    BatchFollowsDatePlan(st, cfg, runData, dates, ranges, cal);
    var units := Units(DatePlan(dates, ranges, cal).value, runData);
    RunUnitsRetains(st, units, cfg);
    RunUnitsAnnounced(st, units, cfg);
  }

  /** The configuration document after `json.load`; a field that is absent is `None`. */
  datatype BatchFile = BatchFile(
    runData: seq<Task>,
    dates: Option<seq<string>>,
    dateRanges: Option<seq<string>>,
    delta: Option<Step>,
    dateFormat: Option<string>,
    maxStored: Option<int>)

  /** The date settings of a configuration, with the defaults of one day and `%Y-%m-%d`. */
  function CalendarFor(file: BatchFile, strptime: (string, string) -> Option<Date>, strftime: (Date, string) -> string): Calendar {
    var format := file.dateFormat.GetOr(DEFAULT_DATE_FORMAT);
    Calendar(file.delta.GetOr(DEFAULT_STEP), s => strptime(s, format), d => strftime(d, format))
  }

  /** The batch state `main` keeps: the retained container names and everything issued so far. */
  class Batch {
    const config: Config
    var containerIds: seq<string>
    var trace: seq<Event>

    function Snapshot(): State
      reads this
    {
      State(containerIds, trace)
    }

    ghost predicate Valid()
      reads this
    {
      WithinCap(containerIds, config.maxStored)
    }

    /** A fresh batch: nothing retained, nothing issued. */
    constructor (config: Config)
      ensures this.config == config && containerIds == [] && trace == []
      ensures Valid()
    {
      this.config := config;
      containerIds := [];
      trace := [];
    }

    /** `subprocess.run(..., check=True)`: issue a command; it fails when the runtime refuses it. */
    method Issue(command: Event) returns (ok: bool)
      modifies this`trace
      ensures trace == old(trace) + [command]
      ensures ok == config.launcher.accepts(old(trace), command)
    {
      ok := config.launcher.accepts(trace, command);
      trace := trace + [command];
    }

    /** The body of `run_containers`' loop, for one task. */
    method RunTask(date: string, task: Task) returns (outcome: Outcome)
      requires Valid()
      modifies this
      ensures Valid()
      ensures (Snapshot(), outcome) == TaskStep(old(Snapshot()), Unit(date, task), config)
    {
      var envData := ComposeEnv(task.envs);
      trace := trace + [Announce(task.container, date)];
      if config.dryRun {
        return Completed;
      }
      var name := ContainerName(date, config.launcher.clock(trace));
      var argv := ["docker", "run", "-d", "--name=" + name, "-e", DATE_VARIABLE + "=" + date] + envData + [task.container];
      var ok := Issue(Run(name, argv));
      if !ok {
        return Aborted(LaunchFailed(Run(name, argv)));
      }
      ok := Issue(Wait(name));
      if !ok {
        return Aborted(LaunchFailed(Wait(name)));
      }
      containerIds := containerIds + [name];
      if OverCap(|containerIds|, config.maxStored) {
        var removedName := containerIds[0];
        containerIds := containerIds[1..];
        ok := Issue(Rm(removedName));
        if !ok {
          return Aborted(LaunchFailed(Rm(removedName)));
        }
      }
      return Completed;
    }

    /** `run_containers`: every task for one date, in listed order, stopping at the first failure. */
    method RunContainers(date: string, runData: seq<Task>) returns (outcome: Outcome)
      requires Valid()
      modifies this
      ensures Valid()
      ensures (Snapshot(), outcome) == RunUnits(old(Snapshot()), TasksFor(date, runData), config)
    {
      ghost var units := TasksFor(date, runData);
      var i := 0;
      while i < |runData|
        invariant 0 <= i <= |runData|
        invariant Valid()
        invariant RunUnits(old(Snapshot()), units, config) == RunUnits(Snapshot(), units[i..], config)
      {
        assert units[i..][0] == Unit(date, runData[i]) && units[i..][1..] == units[i + 1..];
        outcome := RunTask(date, runData[i]);
        if outcome.Aborted? {
          return;
        }
        i := i + 1;
      }
      return Completed;
    }

    /** `main`'s two loops over this batch: the explicit dates, then each range's dates. */
    method RunAll(runData: seq<Task>, dates: seq<string>, ranges: seq<string>, cal: Calendar) returns (outcome: Outcome)
      requires Valid()
      modifies this
      ensures Valid()
      ensures (Snapshot(), outcome) == RunBatch(old(Snapshot()), config, runData, dates, ranges, cal)
    {
      var i := 0;
      while i < |dates|
        invariant 0 <= i <= |dates|
        invariant Valid()
        invariant RunUnits(old(Snapshot()), Units(dates, runData), config)
               == RunUnits(Snapshot(), Units(dates[i..], runData), config)
      {
        ghost var before := Snapshot();
        assert dates[i..][0] == dates[i] && dates[i..][1..] == dates[i + 1..];
        RunUnitsAppend(before, TasksFor(dates[i], runData), Units(dates[i + 1..], runData), config);
        outcome := RunContainers(dates[i], runData);
        if outcome.Aborted? {
          return;
        }
        i := i + 1;
      }
      var k := 0;
      while k < |ranges|
        invariant 0 <= k <= |ranges|
        invariant Valid()
        invariant RunBatch(old(Snapshot()), config, runData, dates, ranges, cal)
               == RunRanges(Snapshot(), config, runData, ranges[k..], cal)
      {
        assert ranges[k..][0] == ranges[k] && ranges[k..][1..] == ranges[k + 1..];
        var parsed := ParseDateRange(ranges[k]);
        if parsed.Failure? {
          return Aborted(BadDates(parsed.error));
        }
        var generated := GenerateDates(parsed.value.0, parsed.value.1, cal);
        if generated.Failure? {
          return Aborted(BadDates(generated.error));
        }
        var rangeDates := generated.value;
        ghost var start := Snapshot();
        var j := 0;
        while j < |rangeDates|
          invariant 0 <= j <= |rangeDates|
          invariant Valid()
          invariant RunUnits(start, Units(rangeDates, runData), config)
                 == RunUnits(Snapshot(), Units(rangeDates[j..], runData), config)
        {
          ghost var before := Snapshot();
          assert rangeDates[j..][0] == rangeDates[j] && rangeDates[j..][1..] == rangeDates[j + 1..];
          RunUnitsAppend(before, TasksFor(rangeDates[j], runData), Units(rangeDates[j + 1..], runData), config);
          outcome := RunContainers(rangeDates[j], runData);
          if outcome.Aborted? {
            return;
          }
          j := j + 1;
        }
        k := k + 1;
      }
      return Completed;
    }
  }

  /**
   * The whole program after its configuration is loaded: a fresh batch, with the defaults
   * for absent fields, run to its end or its first failure.
   */
  method Execute(
    file: BatchFile, dryRun: bool, launcher: Launcher,
    strptime: (string, string) -> Option<Date>, strftime: (Date, string) -> string)
    returns (outcome: Outcome, containerIds: seq<string>, trace: seq<Event>)
    ensures (State(containerIds, trace), outcome)
         == RunBatch(State([], []), Config(dryRun, file.maxStored, launcher), file.runData,
                     file.dates.GetOr([]), file.dateRanges.GetOr([]), CalendarFor(file, strptime, strftime))
    ensures WithinCap(containerIds, file.maxStored)
  {
    var batch := new Batch(Config(dryRun, file.maxStored, launcher));
    outcome := batch.RunAll(file.runData, file.dates.GetOr([]), file.dateRanges.GetOr([]), CalendarFor(file, strptime, strftime));
    containerIds, trace := batch.containerIds, batch.trace;
  }
}
