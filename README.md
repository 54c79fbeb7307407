# DocJays phase orchestrator, modelled in Dafny

`scripts/run-docjays-phases.py` drives the seven DocJays implementation
phases. Each phase is one `claude /docjays-phaseN` command. The script:

- turns a selection ("all", "N" or "N-M") or a resume point into a plan of
  phase numbers;
- walks the plan, skipping phase numbers outside the catalog and phases whose
  stored record is COMPLETED;
- executes each remaining phase and derives its result from the dry-run flag,
  the exit code, or an exception raised while launching the command, opening
  its log file or streaming its output;
- replaces the phase's old record with the new one and saves the whole list
  to the progress file after every executed phase;
- stops at the first FAILED phase;
- prints a report of the counts per status at the end.

In this model, an oracle stands in for the subprocess and the clock. A
`World` gives each phase number a `Launch` (an exit code, or a launch error
with its message) and a `Clock` (the time stamps, the elapsed seconds, and the
time of the following save). The progress file is the value of a field: the
document the save writes, with each record as the map from field names to
JSON values that `json.load` produces.

Modules, one per file:

- `Wrappers` (wrappers.dfy): `Option` and `Result`.
- `Text` (text.dfy): the Python built-ins the script relies on: `int()` on a
  string, `str()` of an integer, `str.split`, `str.lower`.
- `Phases` (phases.dfy): the status enumeration, the result record, the
  seven-entry catalog, and the result `execute_phase` returns (`PhaseOutcome`).
- `Progress` (progress.dfy): the nine-field record `save_progress` writes per
  result, and how `load_progress` reads it back, including each error.
- `Plan` (plan.dfy): the plan of `run_phases` and of `resume_from`.
- `Store` (store.dfy): the operations on the list of results (first record of a
  phase, remove-then-append, the status filters) and the report summary.
- `Orchestration` (orchestrator.dfy) holds:
  - `Execution`, the specification of a walk over a plan;
  - the invariants of a walk, proved about `Execution`;
  - the class `DocJaysOrchestrator`, with the fields `results` and
    `progressFile`, whose methods load, save, execute one phase and run the
    loop. Each method is proved against `Execution`.

How the code's behaviour is modelled:

- A stored COMPLETED record without a duration makes line 284 raise a
  `TypeError`, because it formats `None` with `.2f`. The model writes this as
  the stop `MissingDuration`: the walk raises there, and no report is
  produced.
- `RunKeepsTimed` shows this cannot happen when every stored record came from
  the script itself.
- `generate_report` raises in the same way at line 334, before the report file
  is written. `Store.Report` gives `None` in that case.
- The source removes the old record with `results.remove(existing)`. That call
  removes the first record equal to `existing`. `existing` is the first record
  of its phase, so the element removed is `existing` itself. `RemoveFirst`
  removes it by phase number.
- `resume_from(k)` with k < 0 builds the selection "-|k|-7". Its first part is
  empty and `int('')` rejects it. `Plan.ResumeFromNegative` states this.

## Model

| member | source | states |
|---|---|---|
| Phases.Info | scripts/run-docjays-phases.py:62-105 | the `PHASES` table: each catalog phase's name, command, estimate and description; its command line and log path are stated through `OutcomeDerivation` |
| Phases.AllPhases | scripts/run-docjays-phases.py:62-105 | the catalog keys in order are strictly increasing, and they are exactly the phase numbers 1..7 |
| Phases.MaxPhaseId | scripts/run-docjays-phases.py:376 | `max(PHASES.keys())` is a catalog phase, and no catalog phase is larger |
| Phases.PhaseOutcome | scripts/run-docjays-phases.py:161-252 | the result names the phase and its catalog name; it is settled (COMPLETED, FAILED or SKIPPED, with an error message exactly when FAILED); it is SKIPPED exactly in a dry run; a duration comes with start and end times; a log file is recorded exactly when a duration is |
| Phases.OutcomeDerivation | scripts/run-docjays-phases.py:179-250 | dry run: SKIPPED, command "/cmd", no time stamps, duration or log. Otherwise the command is "claude /cmd" with start and end times. Exit 0: COMPLETED, with the elapsed seconds and the log path under the output directory. Any other code: FAILED, with "Command exited with code c", the elapsed seconds and the log. A launch error: FAILED, with the exception text and no duration or log |
| Phases.ExitMessageNamesCode | scripts/run-docjays-phases.py:243 | the failure message of an exit code reads back as that code |
| Progress.StatusName | scripts/run-docjays-phases.py:35-41 | `PhaseStatus.value`: each status's string is read back as that status (`StatusRoundTrip`) and distinct statuses have distinct strings (`StatusNameInjective`) |
| Progress.ParseStatus | scripts/run-docjays-phases.py:35-41 | a status string that parses is the encoding of the status it parses to |
| Progress.StatusRoundTrip | scripts/run-docjays-phases.py:35-41 | each of the five statuses is read back from its string value |
| Progress.StatusNameInjective | scripts/run-docjays-phases.py:35-41 | distinct statuses have distinct string values, so the encoding is a bijection onto the five names |
| Progress.EncodeResult | scripts/run-docjays-phases.py:142-152 | a saved record has exactly the nine field names |
| Progress.DecodeResults | scripts/run-docjays-phases.py:123-135 | a loaded list has one result per record, each decoded from its record; a failed load is the error of the first record that fails, and every record before it decodes |
| Progress.DecodeResult | scripts/run-docjays-phases.py:124-134 | one `PhaseResult(...)` from a record: it inverts `EncodeResult` (`DecodeEncode`), reads only the nine fields (`DecodeReadsFields`), gives the KeyError of a missing required field, the ValueError of an unknown status, and None for a missing optional field |
| Progress.DecodeEncode | scripts/run-docjays-phases.py:122-152 | loading a saved record gives the result back, field for field |
| Progress.DecodeEncodeAll | scripts/run-docjays-phases.py:122-156 | loading the saved list gives the whole list back, in order |
| Progress.SaveLoadRoundTrip | scripts/run-docjays-phases.py:118-159 | loading the file that `save_progress` writes gives back the results it saved |
| Progress.UnknownStatusRejected | scripts/run-docjays-phases.py:127 | a status string outside the five names is a ValueError, once the fields read before it are well formed |
| Progress.MissingOptionalFieldsAbsent | scripts/run-docjays-phases.py:128-133 | each optional field missing from a loadable record loads as absent |
| Progress.MinimalRecordLoads | scripts/run-docjays-phases.py:122-134 | a record holding only the number, the name and the status loads, with every optional field absent |
| Progress.DecodeReadsFields | scripts/run-docjays-phases.py:122-134 | loading reads only the nine fields: two records that agree on them load to the same result or error |
| Progress.ExtraFieldsIgnored | scripts/run-docjays-phases.py:122-134 | a saved record with one more, unknown field still loads to the saved result |
| Progress.MissingRequiredFieldRejected | scripts/run-docjays-phases.py:125-127 | a saved record missing the phase number, the name or the status fails with the KeyError of that field |
| Plan.Range | scripts/run-docjays-phases.py:265 | `range(lo, hi + 1)` has hi - lo + 1 elements when lo <= hi and none otherwise, and its i-th element is lo + i |
| Plan.ResolvePlan | scripts/run-docjays-phases.py:260-266 | every plan a selection resolves to is strictly increasing |
| Plan.AllSelection | scripts/run-docjays-phases.py:260-262 | "all", in any mix of letter cases, gives the catalog keys 1..7 in ascending order |
| Plan.RangeSelection | scripts/run-docjays-phases.py:263-265 | "N-M" gives N..M inclusive; that plan is empty when N > M |
| Plan.SingleSelection | scripts/run-docjays-phases.py:266 | a bare "N" gives [N] |
| Plan.ThreePartSelection | scripts/run-docjays-phases.py:264 | "N-M-K" is a ValueError ("too many values"), even though every part is an integer |
| Plan.NonIntegerSelection | scripts/run-docjays-phases.py:266 | a selection without a dash that `int()` rejects is a ValueError naming it |
| Plan.NonIntegerFirstPart | scripts/run-docjays-phases.py:263-264 | in "a-b", a first part that `int()` rejects is a ValueError naming it, whatever follows |
| Plan.NonIntegerSecondPart | scripts/run-docjays-phases.py:263-264 | in "a-b" with a single dash, a well-formed first part and a second part `int()` rejects is a ValueError naming the second |
| Plan.OneToThreeSelection | scripts/run-docjays-phases.py:263-265 | the selection "1-3" is the plan [1, 2, 3] |
| Plan.NegativeSelection | scripts/run-docjays-phases.py:263-264 | a negative number is split at its sign, and the empty first part is rejected |
| Plan.ResumePlan | scripts/run-docjays-phases.py:376 | the plan of `run_phases(f"{k}-7")`: that of the selection "k-7" (`ResumeIsSelection`), k..7 for k >= 0, the announced remaining phases for k >= 1, and a ValueError for k < 0 |
| Plan.AtLeast | scripts/run-docjays-phases.py:373 | the remaining phases are exactly the catalog phases at or above k |
| Plan.ResumeIsSelection | scripts/run-docjays-phases.py:371-376 | resuming from k runs the plan of the selection "k-7" |
| Plan.ResumeFromNatural | scripts/run-docjays-phases.py:376 | from k >= 0 the resumed plan is k..7 |
| Plan.RemainingIsRange | scripts/run-docjays-phases.py:373 | for k >= 1 the announced remaining phases are k..7 |
| Plan.ResumeRunsRemaining | scripts/run-docjays-phases.py:371-376 | for k >= 1 the plan that runs is exactly the list of remaining phases that is announced |
| Plan.ResumeFromNegative | scripts/run-docjays-phases.py:376 | from k < 0 the resume is a ValueError on the empty first part |
| Text.NatToString | scripts/run-docjays-phases.py:376 | `str(n)` is a non-empty string of digits that starts with 0 only for n = 0 |
| Text.IntToString | scripts/run-docjays-phases.py:376 | `str(i)` is digits for i >= 0, and a minus sign followed by digits for i < 0 |
| Text.ParseInt | scripts/run-docjays-phases.py:264-266 | `int()` of a string: surrounding whitespace, an optional sign and digits with single underscores; it reads back every `str(i)` (`ParseIntOfIntToString`), and None is its ValueError |
| Text.ParseIntOfIntToString | scripts/run-docjays-phases.py:264-266 | `int(str(i)) == i` for every integer i |
| Text.Split | scripts/run-docjays-phases.py:263-264 | `split("-")` gives at least one part, no part contains the dash, and there are two or more parts exactly when the string contains one |
| Text.JoinSplit | scripts/run-docjays-phases.py:264 | joining the parts with the separator gives back the string |
| Text.SplitAtFirst | scripts/run-docjays-phases.py:264 | splitting "a-b" with no dash in a gives a followed by the parts of b |
| Text.Lower | scripts/run-docjays-phases.py:261 | lowering keeps the length |
| Text.LowerIsAll | scripts/run-docjays-phases.py:261 | a string lowers to "all" exactly when it spells "all" in some mix of cases |
| Text.BadFirstCharRejected | scripts/run-docjays-phases.py:266 | `int()` rejects a string whose first character is neither whitespace it strips, nor a sign, nor a digit |
| Text.SeparatorNotStripped | scripts/run-docjays-phases.py:266 | `int()` does not strip the information separators that `str.isspace` accepts: a digit after U+001C is not an integer |
| Text.TrimStart | scripts/run-docjays-phases.py:264-266 | the whitespace `int()` ignores at the front is removed, and nothing more |
| Text.TrimEnd | scripts/run-docjays-phases.py:264-266 | the whitespace `int()` ignores at the end is removed, and nothing more |
| Store.FirstForSpec | scripts/run-docjays-phases.py:282 | `next(...)` is None exactly when no record has phase p; otherwise it is the first record of phase p |
| Store.RemoveFirstSpec | scripts/run-docjays-phases.py:291-292 | with no record of p nothing is removed; otherwise exactly that first record is removed, as a multiset, and the length drops by one |
| Store.RemoveFirstMembers | scripts/run-docjays-phases.py:291-292 | the removal keeps only records that were there |
| Store.RemoveFirstUnique | scripts/run-docjays-phases.py:291-292 | with at most one record per phase, the removal leaves no record of p and keeps that uniqueness |
| Store.Upsert | scripts/run-docjays-phases.py:290-293 | `results.remove(existing)` then `results.append(result)`: the new record last, the other records in order, uniqueness kept (`UpsertProperties`), other phases' records unchanged (`UpsertOtherPhase`) |
| Store.UpsertProperties | scripts/run-docjays-phases.py:290-293 | after the update the new record is last, and the other phases' records keep their relative order. The length rises by one only if the phase had no record. With at most one record per phase to begin with, uniqueness holds afterwards and the new record is the phase's only one |
| Store.UpsertOtherPhase | scripts/run-docjays-phases.py:290-293 | the update leaves every other phase's first record as it was |
| Store.UpsertMembers | scripts/run-docjays-phases.py:290-293 | after the update every record was there before or is the new one |
| Store.WithStatus | scripts/run-docjays-phases.py:320-322 | each filtered record has the status filtered for |
| Store.WithStatusCounts | scripts/run-docjays-phases.py:320-322 | the filter keeps every record of that status, as often as it occurs, and nothing else |
| Store.Summarize | scripts/run-docjays-phases.py:320-327 | the `summary` block of lines 359-364: the total is the number of results and each count is the number of results with that status (`WithStatusCounts`); the counts add up to at most the total (`SummaryCounts`) |
| Store.SummaryCounts | scripts/run-docjays-phases.py:320-327 | completed + failed + skipped is the number of records in a terminal status, and never exceeds the total |
| Store.SummaryOfTerminal | scripts/run-docjays-phases.py:320-327 | when no record is pending or in progress, the three counts add up to the total |
| Store.Report | scripts/run-docjays-phases.py:314-366 | the report is produced exactly when every completed record has a duration (line 334 formats it); its total is the number of results and the status counts do not exceed it |
| Orchestration.Execution | scripts/run-docjays-phases.py:273-304 | the walk of the loop over a plan: it executes only catalog phases of the plan (`ExecutedFromPlan`), and when it finishes it has executed every one of them whose record was not COMPLETED (`RunsEveryPending`), while such a phase it did not execute comes after the phase it stopped at (`UnexecutedAfterStop`); it ignores unknown ids, never executes a COMPLETED phase, keeps one record per phase, and stops at the first failure, which is the last phase executed (`FailureEndsRun`); the loop `RunPlan` is proved equal to it |
| Orchestration.StepOf | scripts/run-docjays-phases.py:273-293 | a phase executes exactly when it is in the catalog and its first record is not COMPLETED; the loop raises exactly on a COMPLETED record without a duration; an executed phase's result is its outcome |
| Orchestration.ExecutedFromPlan | scripts/run-docjays-phases.py:273-293 | every phase a walk executes is a catalog phase of the plan |
| Orchestration.FailureIsLastExecuted | scripts/run-docjays-phases.py:299-304 | a walk that stops on failure stops at the last phase it executed |
| Orchestration.Known | scripts/run-docjays-phases.py:274-277 | the plan without its unknown ids keeps exactly the catalog phases of the plan |
| Orchestration.UnknownIdsIgnored | scripts/run-docjays-phases.py:274-277 | ids outside the catalog add no record, change nothing and do not stop the loop: the run is the run without them |
| Orchestration.RunKeepsUnique | scripts/run-docjays-phases.py:288-293 | a walk keeps at most one record per phase |
| Orchestration.RunKeepsSettled | scripts/run-docjays-phases.py:288-293 | a walk stores no pending or in-progress record, and no error message on a record that is not FAILED |
| Orchestration.CompletedNeverRerun | scripts/run-docjays-phases.py:279-285 | a phase whose first record is COMPLETED is never executed, and that record stays the phase's first |
| Orchestration.FailureEndsRun | scripts/run-docjays-phases.py:299-304 | the only executed phase that failed is the last, and the walk stops on failure exactly when it failed: nothing runs after a failure |
| Orchestration.RunsEveryPending | scripts/run-docjays-phases.py:273-304 | a walk that finishes has executed every catalog phase of the plan whose first record was not COMPLETED |
| Orchestration.UnexecutedAfterStop | scripts/run-docjays-phases.py:273-304 | a pending catalog phase of the plan that the walk did not execute means the walk stopped (on a failure or a raise), and the phase comes only after the planned phase it stopped at |
| Orchestration.DryRunSkipsAll | scripts/run-docjays-phases.py:179-184 | a dry run never stops on failure, and every phase it executes gets a SKIPPED result; it finishes when every stored COMPLETED record has its duration; a finished dry run from a store with one record per phase executes every catalog phase of the plan not already COMPLETED, and leaves its SKIPPED result as that phase's record |
| Orchestration.RunKeepsTimed | scripts/run-docjays-phases.py:279-285 | when every stored COMPLETED record has a duration, the walk never raises on one and the report is produced |
| Orchestration.ExecutedPhaseRecorded | scripts/run-docjays-phases.py:288-293 | after the walk, each executed phase's record is exactly its new result |
| Orchestration.StopsAtSecondPhase | scripts/run-docjays-phases.py:260-304 | the selection "1-3" from an empty store with phase 2 exiting nonzero executes 1 and 2, stops at 2, and keeps two records: COMPLETED, then FAILED |
| Orchestration.FileAfterPersists | scripts/run-docjays-phases.py:296 | after a walk that executed a phase, loading the progress file gives the results in memory |
| Orchestration.DocJaysOrchestrator.constructor | scripts/run-docjays-phases.py:107-113 | the dry-run flag and the output directory project_root/scripts/outputs are set, there are no results yet, and the progress file is the one on disk |
| Orchestration.DocJaysOrchestrator.LoadProgress | scripts/run-docjays-phases.py:118-135 | without a file nothing changes; a file that loads replaces the results; a file that does not load raises its error and leaves the results |
| Orchestration.DocJaysOrchestrator.SaveProgress | scripts/run-docjays-phases.py:138-159 | the file is rewritten with every result and the time, and loading it gives the results back |
| Orchestration.DocJaysOrchestrator.ExecutePhase | scripts/run-docjays-phases.py:161-252 | the result built step by step is the phase's outcome, whose properties are `PhaseOutcome`'s and `OutcomeDerivation`'s |
| Orchestration.DocJaysOrchestrator.RunStep | scripts/run-docjays-phases.py:273-296 | one iteration is the specified step. An executed phase's result replaces its record and the file is saved. A skipped or raising iteration changes neither the results nor the file |
| Orchestration.DocJaysOrchestrator.RunPlan | scripts/run-docjays-phases.py:273-304 | the loop's new results, executed phases and stop are the specified walk's; the progress file is untouched if nothing ran, and otherwise is the save after the last executed phase |
| Orchestration.DocJaysOrchestrator.RunPhases | scripts/run-docjays-phases.py:254-312 | a bad selection raises before anything changes. Otherwise the walk is the specified one over the resolved plan, and the report is produced unless the walk raised. After executing a phase, the progress file loads to the results in memory |
| Orchestration.DocJaysOrchestrator.ResumeFrom | scripts/run-docjays-phases.py:371-376 | resuming from k is `run_phases("k-7")`: when that selection is rejected it raises before anything runs, with no report, nothing executed and results and file unchanged; otherwise the walk, results, file and report are those of the resolved plan |
| Orchestration.NewOrchestrator | scripts/run-docjays-phases.py:107-116 | constructing loads the progress: the results are the file's, or empty without a file; a file that does not load makes the construction raise its error |

## Left out

- The subprocess (lines 201-229) is an oracle: `World.launch` gives each phase's exit code or launch error. The model does not cover streaming stdout and stderr to the console and the log file.
- The clock (lines 187, 193, 231-234) is an oracle too: `World.clock` gives opaque time-stamp strings and the elapsed seconds as a `real`. The model does not parse ISO stamps or compute float arithmetic.
- JSON text, file opening and `mkdir` (lines 113, 120-122, 158-159) are not modelled. The progress file is a `Document` value held in a field, and a record is the dictionary `json.load` gives.
- Progress.DecodeResult: the model's JSON values are null, integers, floats and strings only. Booleans, arrays and objects cannot be written in a model record. Among the values it has, one of another type than the script writes is a `WrongType` error here, where Python checks no types:
  - a string phase number never equals a planned phase, so that phase runs again and a second record is appended;
  - a float phase number such as 1.0 equals 1, and so does `true`;
  - a name or time stamp of another type is printed as it is;
  - a string duration on a COMPLETED record fails with a ValueError at line 284 or 334, and an array or object duration fails there with a TypeError, while `true` formats as "1.00".

  The model says nothing about such files other than that it rejects the ones it can express.
- The report file (lines 355-366), the total execution time (lines 350-352) and every `print` are left out. `Store.Report` gives the `summary` counts, or None when line 334 raises.
- The 5-second pause between phases (lines 306-309) is left out; it does not affect any state.
- `main` (lines 379-460) is left out: argument parsing, the `.claude` marker check, the `KeyboardInterrupt` and exception handlers, and `sys.exit`.
- The Windows stdout re-encoding (lines 29-32) is left out.
- Orchestration.DocJaysOrchestrator.ExecutePhase: the unknown-phase ValueError (lines 163-165) is the precondition `IsPhase(n)`, because `run_phases` filters unknown ids first.
- Text.ParseInt: `int()` accepts non-ASCII decimal digits; the model accepts only ASCII digits, with a sign, single underscores between digits, and surrounding whitespace.
- Text.ParseInt: since Python 3.11, `int()` raises a ValueError on a literal of more than `sys.get_int_max_str_digits()` digits (4300 by default). The model accepts literals of any length, so a selection such as "1-" followed by 5000 nines resolves here and raises in the program.
- Text.IntToString: the same limit makes `f"{k}"` at line 376 raise for a k of more than 4300 digits; the model renders every integer.
- Text.Lower: lowers ASCII letters only. No other character lowers to the letters of "all", so the "all" test is unchanged.
- Orchestration.DocJaysOrchestrator.constructor: does not load progress itself; `Orchestration.NewOrchestrator` is the whole `__init__`, construction plus `load_progress`.
- Phases.PhaseOutcome: an exception raised by the prints at lines 239-244 (a `BrokenPipeError`, say) reaches the handler at line 246 after the duration and the log path are set, and leaves a FAILED result that keeps them, with the exception's text and a new end time. `PhaseOutcome` gives a FAILED result from an exception only without a duration or log, so that path is not modelled. `LaunchError` stands for any exception raised before the end time is taken at line 231. A command the shell cannot find is an exit code (127), not an exception.
- Orchestration.DocJaysOrchestrator.constructor: the output directory is the string `project_root + "/scripts/outputs"`. `Path` joining differs for a root of "/", a root with a trailing slash, and Windows separators.
