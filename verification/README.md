# Batch container runner — a Dafny model

`batch_run.py` runs a list of container tasks once per date, strictly in series. The dates
come from two places:

- a list of explicit date strings;
- a list of `start_end` range descriptors. Each descriptor expands to every date from `start`
  to `end` inclusive, in steps of a configured increment.

For every (date, task) pair, in order, the script announces the run. Unless this is a dry
run, it then:

1. starts the container with `docker run -d`, passing the date as `CUSTOM_DATE` along with
   the task's variables and env-files;
2. blocks on `docker wait`;
3. records the container's name;
4. once more than `max_stored` names are recorded, removes the oldest container with
   `docker rm`.

A dry run only announces.

The first failing command ends the whole batch.

The model is in four modules:

- `Wrappers` (`wrappers.dfy`): `Option` and `Result`.
- `DateSequencer` (`dates.dfy`): `parse_date_range` and `generate_dates`.
  - A date is an integer day ordinal and the increment is a positive integer.
  - The configured format is a `Calendar`: a `parse` function (strptime) and a `format`
    function (strftime).
  - `GenerateDates` is the generator's loop as a method. It is proved against the function
    `ExpandDates`.
  - `DatePlan` is the order in which `main` visits dates.
- `Runner` (`runner.dfy`): `run_containers`.
  - The container runtime is a `Launcher`: it decides whether each issued command succeeds,
    given everything issued before, and supplies the `time_ns` reading used in the container
    name.
  - Every command issued is appended to an event trace.
  - `TaskStep` is one iteration of the loop and `RunUnits` is a sequence of (date, task)
    units. Together they specify the loop.
- `Driver` (`driver.dfy`): `main` after the configuration is loaded.
  - The class `Batch` holds the retained container names (`container_ids`) and the trace, and
    updates them in place.
  - Its methods `RunTask`, `RunContainers` and `RunAll` are the loops of the source. Each is
    proved equal to the specification functions `TaskStep`, `RunUnits` and `RunBatch`.
  - Lemmas relate `RunBatch` to the date plan.

Three behaviours of the code worth noting:

- A date string that does not match the format is only noticed when the loop reaches it.
  `generate_dates` is a lazy generator, consumed range by range. So the explicit dates and
  every earlier range run before a later range's parse error is raised, in a live run as in a
  dry one (`BatchBadRange`, `RunRangesBadRange`; `BatchDryRunBadRange` for what a dry run
  announces).
  A range string without exactly one `_` fails the same way, when the loop reaches it.
- A failing `docker rm` is fatal, exactly as a failing `docker run` or `docker wait` is.
- Dates in the explicit `dates` list are passed through verbatim and never parsed.

## Model

| member | source | states |
|---|---|---|
| DateSequencer.Split | batch_run.py:38 | `str.split` on one character: there is always at least one piece, and no piece contains the separator |
| DateSequencer.SplitJoin | batch_run.py:38 | joining the pieces with the separator gives back the input string |
| DateSequencer.SplitCount | batch_run.py:38 | the number of pieces is one more than the number of separator occurrences |
| DateSequencer.ParseDateRange | batch_run.py:37-39 | splits the descriptor at `_` and returns the two pieces, or `MalformedRange` unless there are exactly two; its properties are `ParseDateRangeSpec` and `ParseDateRangeRoundTrip` |
| DateSequencer.ParseDateRangeSpec | batch_run.py:37-39 | unpacking succeeds exactly when the descriptor holds one `_`; the two halves are then `_`-free and rebuild the descriptor; otherwise the error names the descriptor |
| DateSequencer.ParseDateRangeRoundTrip | batch_run.py:37-39 | parsing `start + "_" + end` gives back `(start, end)` for any `_`-free start and end |
| DateSequencer.DateOrdinals | batch_run.py:44-46 | the dates the `while` loop visits, from the current date while it does not pass the end, one step apart; its properties are `DateOrdinalsShape`, `DateOrdinalsAt`, `DateOrdinalsReach` and `DateOrdinalsEndInclusive` |
| DateSequencer.DateOrdinalsShape | batch_run.py:44-46 | the loop yields nothing iff start > end; it begins at start; every date lies between start and end; the dates strictly increase |
| DateSequencer.DateOrdinalsAt | batch_run.py:44-46 | the i-th yielded date is start plus i increments |
| DateSequencer.DateOrdinalsReach | batch_run.py:44-46 | every date start + n·step that does not pass the end is yielded |
| DateSequencer.DateOrdinalsEndInclusive | batch_run.py:44 | the end bound is inclusive: when start + n·step equals end, end is the last of exactly n + 1 dates |
| DateSequencer.FormatAll | batch_run.py:45 | each yielded string is the configured format applied to the matching date, one per date |
| DateSequencer.ExpandDates | batch_run.py:41-46 | parses the start, then the end (the first that fails is the error), and formats every visited date; its properties are `ExpandDatesInclusive`, and `GenerateDates` is the loop proved equal to it |
| DateSequencer.GenerateDates | batch_run.py:41-46 | the generator's loop yields exactly the dates of `ExpandDates`; a start date that fails to parse is reported first, then the end date |
| DateSequencer.ExpandDatesInclusive | batch_run.py:41-46 | for dates that parse: empty iff start > end; the first string is the formatted start; a single day gives one string; a reachable end is the last string; every string formats a date within the bounds; an injective format gives no duplicates |
| DateSequencer.ExpandRange | batch_run.py:98-99 | one range descriptor parsed and expanded, or the first error of the two steps; used by `RangePlan` and `Driver.RunRanges` |
| DateSequencer.RangePlan | batch_run.py:97-99 | every range's dates, range after range, or the first failing range's error; its properties are `RangePlanAppend` and `DatePlanFirstError` |
| DateSequencer.DatePlan | batch_run.py:94-99 | the explicit dates followed by `RangePlan`; its properties are `DatePlanOrder` and `DatePlanFirstError`, and `Driver.BatchFollowsDatePlan` ties it to the run |
| DateSequencer.RangePlanAppend | batch_run.py:97-99 | expanding two lists of ranges one after the other is expanding their concatenation, and the first error wins |
| DateSequencer.DatePlanOrder | batch_run.py:94-99 | the plan exists iff every range expands; the explicit dates come first, verbatim, then the first range's dates; its length is the number of explicit dates plus every range's count |
| DateSequencer.DatePlanFirstError | batch_run.py:97-99 | when ranges 0..k-1 expand and range k does not, range k's error is the plan's error |
| Runner.VariableArgs | batch_run.py:55-57 | the `-e`, `NAME=value` pairs of the variables in listed order; its property is `VariableArgsShape` |
| Runner.FileArgs | batch_run.py:58-60 | one `--env-file=PATH` per env-file in listed order; its property is `FileArgsShape` |
| Runner.EnvArgs | batch_run.py:51-60 | the variable arguments followed by the file arguments, a missing key contributing none; `ComposeEnv` is the loops proved equal to it |
| Runner.VariableArgsShape | batch_run.py:55-57 | each variable contributes the pair `-e`, `NAME=value`, in listed order |
| Runner.FileArgsShape | batch_run.py:58-60 | each env-file contributes one `--env-file=PATH`, in listed order |
| Runner.ComposeEnv | batch_run.py:51-60 | the two loops build the variable arguments followed by the file arguments; a missing key contributes nothing |
| Runner.ContainerName | batch_run.py:63 | `batch_<date>_<nanoseconds>`, the clock reading written in decimal; it appears in `TaskStep`'s and `TaskStepEvents`' contracts |
| Runner.DockerRunArgs | batch_run.py:64 | the fixed words, the environment arguments and the image; its property is `DockerRunArgsShape` |
| Runner.DockerRunArgsShape | batch_run.py:63-64 | the `docker run` argument vector is the six fixed words with name and `CUSTOM_DATE`, then every variable pair, then every env-file, then the container image last |
| Runner.OverCap | batch_run.py:70 | `len(container_ids) > max_stored`, never true without a cap; used by `TaskStepFifo`, `TaskStepEvents` and `RetainedGrows` |
| Runner.Retained | batch_run.py:68-72 | how many names the FIFO holds after a number of launches: all of them, or `Limit(cap)`; `TaskStepRetains` and `RunUnitsRetains` prove the FIFO has this size |
| Runner.Limit | batch_run.py:70 | the most names a cap lets the FIFO keep, 0 for a negative cap; `RunUnitsKeepsCap` proves the FIFO stays within it |
| Runner.LiveCommands | batch_run.py:63-72 | the commands of a live step when none fails: `docker run`, `docker wait` on the same name, and `docker rm` of the oldest name when over the cap; `TaskStepEvents` ties it to `TaskStep` |
| Runner.TaskStep | batch_run.py:49-72 | one task: the trace grows and its first new event is the announcement; a dry run does nothing else; a live run next issues `docker run` with the timestamped name; an abort is caused by the last issued command, which the runtime refused; the retention cap is kept |
| Runner.TaskStepEvents | batch_run.py:61-72 | a live step's events are exactly the announcement followed by the run, the wait on the container just started and, when over the cap, the removal of the oldest name, cut after the first command the runtime refuses: every command before the last one issued was accepted; it completes iff every command is accepted, and an abort names the refused command |
| Runner.TaskStepFifo | batch_run.py:68-72 | a completed live task launches one container and appends its name; over the cap it pops the oldest name and removes exactly that container, otherwise removes nothing |
| Runner.TaskStepRetains | batch_run.py:68-72 | a completed task keeps the retained names equal to the launched names minus the removed ones, with size min(launched, cap) |
| Runner.TaskStepAnnounces | batch_run.py:61-72 | every step, whether it completes or aborts, prints exactly one announcement line (its own) and no other |
| Runner.RunUnits | batch_run.py:49-72 | `TaskStep` applied unit after unit, stopping at the first abort; its properties are `RunUnitsAppend`, `RunUnitsAbort`, `RunUnitsDryRun`, `RunUnitsAnnounced`, `RunUnitsKeepsCap` and `RunUnitsRetains` |
| Runner.TasksFor | batch_run.py:49 | the units of one date: every task of `run_data`, in listed order; `Batch.RunContainers` is the loop proved to run them |
| Runner.Units | batch_run.py:94-100 | the units of a date list, date after date, with every task for each; its properties are `UnitsAppend` and `UnitsOrder` |
| Runner.RunUnitsAppend | batch_run.py:49 | running two unit lists one after the other is running their concatenation, stopping at the first abort |
| Runner.RunUnitsAbort | batch_run.py:65-72 | an aborted run failed on a command, and it stopped at some unit k: units before k all completed and nothing after unit k ran |
| Runner.RunUnitsDryRun | batch_run.py:61-62 | a dry run completes, leaves the retained names unchanged and issues exactly one announcement per unit, in order |
| Runner.RunUnitsAnnounced | batch_run.py:61 | a completed live run announces every unit exactly once, in unit order |
| Runner.RunUnitsKeepsCap | batch_run.py:70-71 | the retained names never exceed the cap, whether the run completes or aborts |
| Runner.RunUnitsRetains | batch_run.py:68-72 | after a completed run the retained names are the newest launched containers not yet removed, as many as the cap allows |
| Runner.UnitsAppend | batch_run.py:94-100 | the units of two date lists are the units of each, one after the other |
| Runner.UnitsOrder | batch_run.py:94-95 | every task runs for every date: with n tasks, unit number i·n + j is (date i, task j), and there are (number of dates)·n units |
| Runner.AnnouncementsOfAppend | batch_run.py:61 | the announcements of two unit lists are each list's announcements, one after the other |
| Driver.RunRanges | batch_run.py:97-100 | the range loop: each range expanded just before its units run, stopping at the first bad range or failing command; its properties are `RunRangesFollowPlan`, `RunRangesDateError`, `RunRangesBadRange`, `RunRangesCompleted` and `RunRangesDryRunBadRange` |
| Driver.RunBatch | batch_run.py:94-100 | the explicit-date loop then `RunRanges`; its properties are `BatchFollowsDatePlan`, `BatchDateError`, `BatchBadRange`, `BatchDryRun`, `BatchDryRunBadRange` and `BatchRetains`, and `Batch.RunAll` is the loops proved equal to it |
| Driver.CalendarFor | batch_run.py:86-89 | the date settings with the defaults: a one-day step and `%Y-%m-%d` when the fields are absent; used by `Execute` |
| Driver.BatchFollowsDatePlan | batch_run.py:94-100 | when every range expands, interleaving expansion with the runs is exactly running every (date, task) unit of the date plan, in plan order |
| Driver.RunRangesFollowPlan | batch_run.py:97-100 | the same for the range loop alone |
| Driver.BatchDateError | batch_run.py:94-100 | a batch whose plan fails never completes: it stops with the plan's error or with a launch failure, and in a dry run always with the plan's error; `BatchBadRange` pins down which units ran first and where a launch failure can come from |
| Driver.RunRangesDateError | batch_run.py:97-100 | the same for the range loop alone, made exact by `RunRangesBadRange` |
| Driver.BatchBadRange | batch_run.py:94-100 | in any mode, when range k is the first that fails to expand, the batch is exactly: run every unit of the explicit dates and of ranges 0..k-1, in order; if one of those commands was refused, that abort is the result; otherwise the batch stops with range k's error and issues nothing more |
| Driver.RunRangesBadRange | batch_run.py:97-100 | the same for the range loop alone: the earlier ranges' units all run before the bad range is noticed, and a launch failure can only come from one of them |
| Driver.RunRangesCompleted | batch_run.py:97-100 | a range loop that completes has expanded every range |
| Driver.BatchDryRunBadRange | batch_run.py:94-100 | in a dry run, a range that fails to expand stops the batch with its error, after every explicit date and every earlier range has been announced, and with nothing announced after it |
| Driver.RunRangesDryRunBadRange | batch_run.py:97-100 | the same for the range loop alone |
| Driver.BatchDryRun | batch_run.py:94-100 | a dry run of a well-formed batch completes, keeps the retained names unchanged, and issues one announcement per unit of the date plan in order, and nothing else |
| Driver.BatchRetains | batch_run.py:92-100 | a batch that completes had a valid date plan, announced all of it in order, and retains exactly the newest launched-and-not-removed names, as many as the cap allows |
| Driver.Batch.constructor | batch_run.py:92 | a fresh batch retains no names and has issued nothing |
| Driver.Batch.Issue | batch_run.py:65-66 | a command is appended to the trace, and its success is the runtime's verdict on it |
| Driver.Batch.RunTask | batch_run.py:50-72 | the loop body updates the retained names and the trace exactly as `TaskStep` does, and keeps the cap |
| Driver.Batch.RunContainers | batch_run.py:48-72 | `run_containers` for one date updates the batch exactly as `RunUnits` does over that date's tasks, and keeps the cap |
| Driver.Batch.RunAll | batch_run.py:94-100 | the explicit-date loop, then the range loop with parsing, generation and the inner date loop, update the batch exactly as `RunBatch` does |
| Driver.Execute | batch_run.py:83-100 | with absent fields defaulted (no dates, no ranges, one-day step, `%Y-%m-%d`, no cap), a fresh batch runs as `RunBatch` from the empty state, and ends within the cap |

## Left out

- Argument parsing and `json.load` (lines 75-81) are not modelled. The loaded document is the
  datatype `BatchFile`, with absent fields as `None`. A missing `run_data` key, JSON values
  that are not strings, and duplicate JSON keys are not represented.
- `subprocess.run` and Docker itself are the `Launcher`, which only decides whether each
  command succeeds. Output, exit codes and what `docker wait` reports are left to that
  verdict.
- `datetime.strptime` and `strftime` with the date format string are the `parse` and `format`
  functions of the `Calendar`. The format string itself is only passed to them.
- `relativedelta` calendar arithmetic is replaced by a positive day count. Month and year
  steps, with their clamping to month ends, are not modelled.
- A zero `delta` with start <= end makes the source loop forever; with start > end the loop
  yields nothing, as for any step. A negative `delta` with start <= end yields start,
  start - 1, ... and runs every task for each of those dates, until the date passes below
  year 1 and `OverflowError` is raised. The model's step type is positive and excludes both;
  the runs before the overflow are not modelled.
- Dates are unbounded integers, but `datetime` ends at 9999-12-31. In the source, stepping
  past that date at line 46 raises `OverflowError` (a `ValueError` for a `years` step) after every task has run for the last
  date yielded; the batch then stops and later ranges never run. For example, the ranges
  `9999-12-30_9999-12-31` then `2024-07-15_2024-07-15` run two dates and fail, and a step of
  8000 years fails after its first date. The model has no upper bound: `DateOrdinals` ends
  normally and the batch goes on to the next range.
- Sub-day steps (`hours`, `minutes`, `seconds` in `delta`) are not expressible as a positive
  day count. With such a step the source can yield the same formatted date several times in a
  row; the model's dates are whole days, so this is not modelled.
- A `run_data` entry without a `"container"` or `"envs"` key raises `KeyError` (lines 50 and
  52), in dry runs too, after every earlier unit has run. An entry with `"envs": null` raises
  `AttributeError` at line 53 in the same way. A `Task` always has a container and an
  `EnvSpec`, so neither failure is modelled.
- A field present with JSON `null` is not the same as an absent field, but `BatchFile` gives
  both as `None`. In the source, `"max_stored": null` makes line 70 raise `TypeError` after the
  first live wait, `"run_data": null` makes line 49 raise `TypeError` when the first date runs
  (with no dates at all the run ends normally), `"dates": null` or `"date_ranges": null` raise at line 94 or 97, and a null
  `"date_format"` or `"delta"` raises when the first range is parsed or stepped. The
  model treats all of these as absent fields with their defaults.
- `time_ns` is the launcher's `clock`. The model does not show that two container names differ:
  that relies on the clock advancing, which the model leaves to the launcher.
- The wall-clock timestamp and the text of the announcement line are not modelled. An
  announcement records only its container and date.
- `math.inf` as the default `max_stored` is `None`. Non-integer caps are not represented. A
  negative cap behaves as 0, as the comparison in the source does.
