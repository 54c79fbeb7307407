/**
 * The run controller: the specification of a run over a plan, the
 * invariants it keeps, and the orchestrator object whose methods load and
 * save progress, execute one phase and walk a plan.
 */
module Orchestration {
  import opened Wrappers
  import opened Text
  import opened Phases
  import opened Progress
  import opened Plan
  import opened Store

  /** The outside world a run sees: what each phase's subprocess does, and the clock. */
  datatype World = World(launch: int -> Launch, clock: int -> Clock)

  /** What phase p's subprocess does in world w. */
  function LaunchOf(w: World, p: int): Launch {
    w.launch(p)
  }

  /** The clock readings while phase p is handled in world w. */
  function ClockOf(w: World, p: int): Clock {
    w.clock(p)
  }

  /**
   * How a walk over the plan ends: it reached the end, it stopped after a
   * failed phase, or it raised on a completed record without a duration
   * (formatting None with ".2f" is a TypeError).
   */
  datatype Stop = Finished | StoppedOnFailure(phase: int) | MissingDuration(phase: int)

  /** The results after a walk, the phases executed in it, in order, and how it ended. */
  datatype Run = Run(results: seq<PhaseResult>, executed: seq<int>, stop: Stop)

  /** Prefix a walk's executed phases with those executed before it. */
  function After(done: seq<int>, run: Run): Run {
    Run(run.results, done + run.executed, run.stop)
  }

  /** The result executing catalog phase p gives in world w. */
  function Outcome(p: int, dryRun: bool, outputDir: string, w: World): PhaseResult
    requires IsPhase(p)
  {
    PhaseOutcome(p, dryRun, outputDir, LaunchOf(w, p), ClockOf(w, p))
  }

  /** Whether the record in hand makes the loop skip the phase. */
  predicate AlreadyCompleted(existing: Option<PhaseResult>) {
    existing.Some? && existing.value.status == Completed
  }

  /**
   * What one iteration of the loop does with phase p: pass over it (an
   * unknown id, or a completed record), raise on a completed record without
   * a duration, or execute it with the given result.
   */
  datatype Step = Pass | Abort | Ran(result: PhaseResult)

  function StepOf(rs: seq<PhaseResult>, p: int, dryRun: bool, outputDir: string, w: World): (step: Step)
    ensures step.Ran? <==> IsPhase(p) && !AlreadyCompleted(FirstFor(rs, p))
    ensures step.Abort? <==> IsPhase(p) && AlreadyCompleted(FirstFor(rs, p)) && FirstFor(rs, p).value.durationSeconds.None?
    ensures step.Ran? ==> step.result == Outcome(p, dryRun, outputDir, w)
  {
    if !IsPhase(p) then Pass
    else
      var existing := FirstFor(rs, p);
      if AlreadyCompleted(existing) then
        if existing.value.durationSeconds.None? then Abort else Pass
      else Ran(Outcome(p, dryRun, outputDir, w))
  }

  /** The walk of `run_phases` over `plan`, starting from the results `rs`. */
  function Execution(rs: seq<PhaseResult>, plan: seq<int>, dryRun: bool, outputDir: string, w: World): Run
    decreases |plan|
  {
    if plan == [] then Run(rs, [], Finished)
    else
      var p := plan[0];
      match StepOf(rs, p, dryRun, outputDir, w)
      case Pass => Execution(rs, plan[1..], dryRun, outputDir, w)
      case Abort => Run(rs, [], MissingDuration(p))
      case Ran(r) =>
        var next := Upsert(rs, r);
        if r.status == Failed then Run(next, [p], StoppedOnFailure(p))
        else After([p], Execution(next, plan[1..], dryRun, outputDir, w))
  }

  /** A run executes only catalog phases of its plan. */
  lemma {:induction false} ExecutedFromPlan(rs: seq<PhaseResult>, plan: seq<int>, dryRun: bool, outputDir: string, w: World)
    ensures forall q :: q in Execution(rs, plan, dryRun, outputDir, w).executed ==> IsPhase(q) && q in plan
    decreases |plan|
  {
    if plan != [] {
      var p := plan[0];
      match StepOf(rs, p, dryRun, outputDir, w)
      case Pass =>
        ExecutedFromPlan(rs, plan[1..], dryRun, outputDir, w);
        assert Execution(rs, plan, dryRun, outputDir, w) == Execution(rs, plan[1..], dryRun, outputDir, w);
      case Abort =>
      case Ran(r) =>
        if r.status != Failed {
          var rest := Execution(Upsert(rs, r), plan[1..], dryRun, outputDir, w);
          ExecutedFromPlan(Upsert(rs, r), plan[1..], dryRun, outputDir, w);
          assert Execution(rs, plan, dryRun, outputDir, w) == After([p], rest);
        }
    }
  }

  /** A run that stops on failure executed something, and the failed phase is the last one it executed. */
  predicate StopsAtLast(run: Run) {
    run.stop.StoppedOnFailure? ==> |run.executed| > 0 && run.executed[|run.executed| - 1] == run.stop.phase
  }

  lemma {:induction false} FailureIsLastExecuted(rs: seq<PhaseResult>, plan: seq<int>, dryRun: bool, outputDir: string, w: World)
    ensures StopsAtLast(Execution(rs, plan, dryRun, outputDir, w))
    decreases |plan|
  {
    if plan != [] {
      var p := plan[0];
      var run := Execution(rs, plan, dryRun, outputDir, w);
      match StepOf(rs, p, dryRun, outputDir, w)
      case Pass =>
        FailureIsLastExecuted(rs, plan[1..], dryRun, outputDir, w);
        assert run == Execution(rs, plan[1..], dryRun, outputDir, w);
      case Abort =>
      case Ran(r) =>
        if r.status != Failed {
          var rest := Execution(Upsert(rs, r), plan[1..], dryRun, outputDir, w);
          FailureIsLastExecuted(Upsert(rs, r), plan[1..], dryRun, outputDir, w);
          assert run == After([p], rest);
          if rest.stop.StoppedOnFailure? {
            assert ([p] + rest.executed)[|rest.executed|] == rest.executed[|rest.executed| - 1];
          }
        }
    }
  }

  /** One step of the walk, by what the loop does with its first phase. */
  lemma UnfoldStep(rs: seq<PhaseResult>, plan: seq<int>, dryRun: bool, outputDir: string, w: World)
    requires plan != []
    ensures Execution(rs, plan, dryRun, outputDir, w) ==
      match StepOf(rs, plan[0], dryRun, outputDir, w)
      case Pass => Execution(rs, plan[1..], dryRun, outputDir, w)
      case Abort => Run(rs, [], MissingDuration(plan[0]))
      case Ran(r) =>
        if r.status == Failed then Run(Upsert(rs, r), [plan[0]], StoppedOnFailure(plan[0]))
        else After([plan[0]], Execution(Upsert(rs, r), plan[1..], dryRun, outputDir, w))
  {
  }

  /** Ids outside the catalog removed from a plan. */
  function Known(plan: seq<int>): (r: seq<int>)
    ensures forall q :: q in r <==> q in plan && IsPhase(q)
  {
    if plan == [] then [] else (if IsPhase(plan[0]) then [plan[0]] else []) + Known(plan[1..])
  }

  /** Unknown ids in the plan change nothing: the run is the run of the plan without them. */
  lemma {:induction false} UnknownIdsIgnored(rs: seq<PhaseResult>, plan: seq<int>, dryRun: bool, outputDir: string, w: World)
    ensures Execution(rs, plan, dryRun, outputDir, w) == Execution(rs, Known(plan), dryRun, outputDir, w)
    decreases |plan|
  {
    if plan != [] {
      var p := plan[0];
      var k := Known(plan);
      if IsPhase(p) {
        assert k[0] == p && k[1..] == Known(plan[1..]);
        UnknownIdsIgnored(rs, plan[1..], dryRun, outputDir, w);
        var r := Outcome(p, dryRun, outputDir, w);
        UnknownIdsIgnored(Upsert(rs, r), plan[1..], dryRun, outputDir, w);
      } else {
        assert k == Known(plan[1..]);
        UnknownIdsIgnored(rs, plan[1..], dryRun, outputDir, w);
      }
    }
  }

  /** A run keeps at most one record per phase. */
  lemma {:induction false} RunKeepsUnique(rs: seq<PhaseResult>, plan: seq<int>, dryRun: bool, outputDir: string, w: World)
    requires Unique(rs)
    ensures Unique(Execution(rs, plan, dryRun, outputDir, w).results)
    decreases |plan|
  {
    if plan != [] {
      var p := plan[0];
      if IsPhase(p) && !AlreadyCompleted(FirstFor(rs, p)) {
        var r := Outcome(p, dryRun, outputDir, w);
        UpsertProperties(rs, r);
        if r.status != Failed {
          RunKeepsUnique(Upsert(rs, r), plan[1..], dryRun, outputDir, w);
        }
      } else if !IsPhase(p) || FirstFor(rs, p).value.durationSeconds.Some? {
        RunKeepsUnique(rs, plan[1..], dryRun, outputDir, w);
      }
    }
  }

  /** A run keeps every record settled: nothing pending or in progress is ever stored by it. */
  lemma {:induction false} RunKeepsSettled(rs: seq<PhaseResult>, plan: seq<int>, dryRun: bool, outputDir: string, w: World)
    requires forall x :: x in rs ==> Settled(x)
    ensures forall x :: x in Execution(rs, plan, dryRun, outputDir, w).results ==> Settled(x)
    decreases |plan|
  {
    if plan != [] {
      var p := plan[0];
      if IsPhase(p) && !AlreadyCompleted(FirstFor(rs, p)) {
        var r := Outcome(p, dryRun, outputDir, w);
        UpsertMembers(rs, r);
        if r.status != Failed {
          RunKeepsSettled(Upsert(rs, r), plan[1..], dryRun, outputDir, w);
        }
      } else if !IsPhase(p) || FirstFor(rs, p).value.durationSeconds.Some? {
        RunKeepsSettled(rs, plan[1..], dryRun, outputDir, w);
      }
    }
  }

  /** A phase whose record is COMPLETED is never executed, and its record is left as it is. */
  lemma {:induction false} CompletedNeverRerun(rs: seq<PhaseResult>, plan: seq<int>, dryRun: bool, outputDir: string, w: World, q: int)
    requires AlreadyCompleted(FirstFor(rs, q))
    ensures var run := Execution(rs, plan, dryRun, outputDir, w);
      q !in run.executed && FirstFor(run.results, q) == FirstFor(rs, q)
    decreases |plan|
  {
    if plan != [] {
      var p := plan[0];
      if IsPhase(p) && !AlreadyCompleted(FirstFor(rs, p)) {
        var r := Outcome(p, dryRun, outputDir, w);
        UpsertOtherPhase(rs, r, q);
        if r.status != Failed {
          CompletedNeverRerun(Upsert(rs, r), plan[1..], dryRun, outputDir, w, q);
        }
      } else if !IsPhase(p) || FirstFor(rs, p).value.durationSeconds.Some? {
        CompletedNeverRerun(rs, plan[1..], dryRun, outputDir, w, q);
      }
    }
  }

  /**
   * The only failed phase of a run is its last executed one, and a run
   * stops on failure exactly when that phase failed: nothing runs after a
   * failure.
   */
  lemma {:induction false} FailureEndsRun(rs: seq<PhaseResult>, plan: seq<int>, dryRun: bool, outputDir: string, w: World)
    ensures var run := Execution(rs, plan, dryRun, outputDir, w);
      forall i :: 0 <= i < |run.executed| ==>
        && IsPhase(run.executed[i])
        && (Outcome(run.executed[i], dryRun, outputDir, w).status == Failed
            <==> i == |run.executed| - 1 && run.stop.StoppedOnFailure?)
    decreases |plan|
  {
    if plan != [] {
      var p := plan[0];
      UnfoldStep(rs, plan, dryRun, outputDir, w);
      match StepOf(rs, p, dryRun, outputDir, w)
      case Pass =>
        FailureEndsRun(rs, plan[1..], dryRun, outputDir, w);
      case Abort =>
      case Ran(r) =>
        if r.status != Failed {
          var rest := Execution(Upsert(rs, r), plan[1..], dryRun, outputDir, w);
          FailureEndsRun(Upsert(rs, r), plan[1..], dryRun, outputDir, w);
          FailureIsLastExecuted(Upsert(rs, r), plan[1..], dryRun, outputDir, w);
          var ex := [p] + rest.executed;
          forall i | 0 <= i < |ex|
            ensures IsPhase(ex[i])
            ensures Outcome(ex[i], dryRun, outputDir, w).status == Failed <==> i == |ex| - 1 && rest.stop.StoppedOnFailure?
          {
            if i > 0 {
              assert ex[i] == rest.executed[i - 1];
            }
          }
        }
    }
  }

  /**
   * A walk that finishes executes every catalog phase of its plan whose
   * first record is not COMPLETED.
   */
  lemma {:induction false} RunsEveryPending(rs: seq<PhaseResult>, plan: seq<int>, dryRun: bool, outputDir: string, w: World, q: int)
    requires IsPhase(q) && q in plan && !AlreadyCompleted(FirstFor(rs, q))
    requires Execution(rs, plan, dryRun, outputDir, w).stop == Finished
    ensures q in Execution(rs, plan, dryRun, outputDir, w).executed
    decreases |plan|
  {
    var p := plan[0];
    UnfoldStep(rs, plan, dryRun, outputDir, w);
    match StepOf(rs, p, dryRun, outputDir, w)
    case Pass =>
      RunsEveryPending(rs, plan[1..], dryRun, outputDir, w, q);
    case Abort =>
    case Ran(r) =>
      var rest := Execution(Upsert(rs, r), plan[1..], dryRun, outputDir, w);
      assert [p] + rest.executed == Execution(rs, plan, dryRun, outputDir, w).executed;
      if p != q {
        UpsertOtherPhase(rs, r, q);
        RunsEveryPending(Upsert(rs, r), plan[1..], dryRun, outputDir, w, q);
      }
  }

  lemma PrefixOfTail(plan: seq<int>, j: int)
    requires 0 <= j < |plan| - 1
    ensures plan[..j + 2] == [plan[0]] + plan[1..][..j + 1] && plan[j + 1] == plan[1..][j]
  {
  }

  /**
   * A catalog phase of the plan that is not already COMPLETED and that the
   * walk did not execute comes after the phase where the walk stopped: the
   * loop runs every pending phase up to its first failure or raise.
   */
  lemma {:induction false} UnexecutedAfterStop(rs: seq<PhaseResult>, plan: seq<int>, dryRun: bool, outputDir: string, w: World, q: int)
    requires IsPhase(q) && q in plan && !AlreadyCompleted(FirstFor(rs, q))
    requires q !in Execution(rs, plan, dryRun, outputDir, w).executed
    ensures var run := Execution(rs, plan, dryRun, outputDir, w);
      !run.stop.Finished? && exists j :: 0 <= j < |plan| && plan[j] == run.stop.phase && q !in plan[..j + 1]
    decreases |plan|
  {
    var p := plan[0];
    var run := Execution(rs, plan, dryRun, outputDir, w);
    UnfoldStep(rs, plan, dryRun, outputDir, w);
    assert plan[..1] == [p];
    match StepOf(rs, p, dryRun, outputDir, w)
    case Pass =>
      assert q in plan[1..];
      UnexecutedAfterStop(rs, plan[1..], dryRun, outputDir, w, q);
      var j :| 0 <= j < |plan[1..]| && plan[1..][j] == run.stop.phase && q !in plan[1..][..j + 1];
      PrefixOfTail(plan, j);
    case Abort =>
      assert plan[0] == run.stop.phase;
    case Ran(r) =>
      if r.status == Failed {
        assert plan[0] == run.stop.phase;
      } else {
        var rest := Execution(Upsert(rs, r), plan[1..], dryRun, outputDir, w);
        assert run.executed == [p] + rest.executed;
        assert q in plan[1..];
        UpsertOtherPhase(rs, r, q);
        UnexecutedAfterStop(Upsert(rs, r), plan[1..], dryRun, outputDir, w, q);
        var j :| 0 <= j < |plan[1..]| && plan[1..][j] == rest.stop.phase && q !in plan[1..][..j + 1];
        PrefixOfTail(plan, j);
      }
  }

  /**
   * A dry run never stops on failure, and every phase it executes is
   * recorded as SKIPPED. It finishes unless a stored COMPLETED record lacks
   * its duration, and a finished dry run executes every catalog phase of
   * the plan not already COMPLETED, leaving its SKIPPED result as the
   * phase's record.
   */
  lemma DryRunSkipsAll(rs: seq<PhaseResult>, plan: seq<int>, outputDir: string, w: World)
    ensures var run := Execution(rs, plan, true, outputDir, w);
      && !run.stop.StoppedOnFailure?
      && forall q :: q in run.executed ==> IsPhase(q) && Outcome(q, true, outputDir, w).status == Skipped
    ensures (forall x :: x in rs ==> Timed(x)) ==> Execution(rs, plan, true, outputDir, w).stop == Finished
    ensures var run := Execution(rs, plan, true, outputDir, w);
      run.stop == Finished && Unique(rs) ==>
        forall q :: q in plan && IsPhase(q) && !AlreadyCompleted(FirstFor(rs, q)) ==>
          && q in run.executed
          && FirstFor(run.results, q) == Some(Outcome(q, true, outputDir, w))
          && FirstFor(run.results, q).value.status == Skipped
  {
    var run := Execution(rs, plan, true, outputDir, w);
    FailureEndsRun(rs, plan, true, outputDir, w);
    FailureIsLastExecuted(rs, plan, true, outputDir, w);
    ExecutedFromPlan(rs, plan, true, outputDir, w);
    if forall x :: x in rs ==> Timed(x) {
      RunKeepsTimed(rs, plan, true, outputDir, w);
    }
    if run.stop == Finished && Unique(rs) {
      forall q | q in plan && IsPhase(q) && !AlreadyCompleted(FirstFor(rs, q))
        ensures q in run.executed && FirstFor(run.results, q) == Some(Outcome(q, true, outputDir, w))
      {
        RunsEveryPending(rs, plan, true, outputDir, w, q);
        ExecutedPhaseRecorded(rs, plan, true, outputDir, w, q);
      }
    }
  }

  lemma FirstForTimed(rs: seq<PhaseResult>, p: int)
    requires forall x :: x in rs ==> Timed(x)
    ensures FirstFor(rs, p).Some? ==> Timed(FirstFor(rs, p).value)
  {
    FirstForSpec(rs, p);
  }

  /**
   * Records the orchestrator itself writes are timed: when every stored
   * completed record has its duration, the run never raises on one, and
   * afterwards the report can be built.
   */
  lemma {:induction false} RunKeepsTimed(rs: seq<PhaseResult>, plan: seq<int>, dryRun: bool, outputDir: string, w: World)
    requires forall x :: x in rs ==> Timed(x)
    ensures var run := Execution(rs, plan, dryRun, outputDir, w);
      && !run.stop.MissingDuration?
      && Report(run.results) == Some(Summarize(run.results))
    decreases |plan|
  {
    if plan != [] {
      var p := plan[0];
      FirstForTimed(rs, p);
      match StepOf(rs, p, dryRun, outputDir, w)
      case Pass =>
        RunKeepsTimed(rs, plan[1..], dryRun, outputDir, w);
      case Abort =>
        assert false;
      case Ran(r) =>
        OutcomeDerivation(p, dryRun, outputDir, LaunchOf(w, p), ClockOf(w, p));
        assert Timed(r);
        UpsertMembers(rs, r);
        if r.status != Failed {
          RunKeepsTimed(Upsert(rs, r), plan[1..], dryRun, outputDir, w);
        }
    }
  }

  /**
   * After the run, each phase executed in it has exactly its new result as
   * its record (given at most one record per phase to start with).
   */
  lemma {:induction false} ExecutedPhaseRecorded(rs: seq<PhaseResult>, plan: seq<int>, dryRun: bool, outputDir: string, w: World, q: int)
    requires Unique(rs) && IsPhase(q)
    requires q in Execution(rs, plan, dryRun, outputDir, w).executed || FirstFor(rs, q) == Some(Outcome(q, dryRun, outputDir, w))
    ensures FirstFor(Execution(rs, plan, dryRun, outputDir, w).results, q) == Some(Outcome(q, dryRun, outputDir, w))
    decreases |plan|
  {
    if plan != [] {
      var p := plan[0];
      if IsPhase(p) && !AlreadyCompleted(FirstFor(rs, p)) {
        var r := Outcome(p, dryRun, outputDir, w);
        UpsertProperties(rs, r);
        if p != q {
          UpsertOtherPhase(rs, r, q);
        }
        if r.status != Failed {
          ExecutedPhaseRecorded(Upsert(rs, r), plan[1..], dryRun, outputDir, w, q);
        }
      } else if !IsPhase(p) || FirstFor(rs, p).value.durationSeconds.Some? {
        ExecutedPhaseRecorded(rs, plan[1..], dryRun, outputDir, w, q);
      }
    }
  }

  /** The walk of the plan [1, 2, 3] when phase 2 exits nonzero, from an empty store. */
  lemma StopsAtSecondOfThree(outputDir: string, w: World)
    requires w.launch(1) == Exit(0) && w.launch(2).Exit? && w.launch(2).code != 0
    ensures var run := Execution([], [1, 2, 3], false, outputDir, w);
      && run.executed == [1, 2]
      && run.stop == StoppedOnFailure(2)
      && |run.results| == 2
      && run.results[0].status == Completed && run.results[1].status == Failed
  {
    var r1 := Outcome(1, false, outputDir, w);
    var r2 := Outcome(2, false, outputDir, w);
    assert Upsert([], r1) == [r1];
    assert FirstFor([r1], 2) == None;
    assert [r1][1..] == [];
    assert RemoveFirst([r1], 2) == [r1];
    assert Upsert([r1], r2) == [r1, r2];
    assert [1, 2, 3][1..] == [2, 3];
    assert Execution([r1], [2, 3], false, outputDir, w) == Run([r1, r2], [2], StoppedOnFailure(2));
  }

  /**
   * Three phases where phase 2 exits nonzero, from an empty store: the run
   * of "1-3" executes 1 and 2, stops, and keeps exactly two records.
   */
  lemma StopsAtSecondPhase(outputDir: string, w: World)
    requires w.launch(1) == Exit(0) && w.launch(2).Exit? && w.launch(2).code != 0
    ensures ResolvePlan("1-3").Ok?
    ensures var run := Execution([], ResolvePlan("1-3").value, false, outputDir, w);
      && run.executed == [1, 2]
      && run.stop == StoppedOnFailure(2)
      && |run.results| == 2
      && run.results[0].status == Completed && run.results[1].status == Failed
  {
    OneToThreeSelection();
    StopsAtSecondOfThree(outputDir, w);
  }

  /** The progress file as the results the orchestrator would load from it. */
  predicate Persists(file: Option<Document>, rs: seq<PhaseResult>) {
    file.Some? && LoadResults(file.value) == Ok(rs)
  }

  lemma AfterAfter(a: seq<int>, b: seq<int>, run: Run)
    ensures After(a, After(b, run)) == After(a + b, run)
  {
    assert a + (b + run.executed) == (a + b) + run.executed;
  }

  /**
   * The progress file after a walk that executed `executed`: untouched when
   * nothing ran, otherwise the save that followed the last executed phase.
   */
  function FileAfter(file: Option<Document>, rs: seq<PhaseResult>, executed: seq<int>, w: World): Option<Document> {
    if executed == [] then file else Some(SaveDocument(rs, ClockOf(w, executed[|executed| - 1]).savedAt))
  }

  /** After a walk that executed something, loading the progress file gives the results in memory. */
  lemma FileAfterPersists(file: Option<Document>, rs: seq<PhaseResult>, executed: seq<int>, w: World)
    requires executed != []
    ensures Persists(FileAfter(file, rs, executed, w), rs)
  {
    SaveLoadRoundTrip(rs, ClockOf(w, executed[|executed| - 1]).savedAt);
  }

  /** The orchestrator: its settings, its in-memory results, and the progress file on disk. */
  class DocJaysOrchestrator {
    const dryRun: bool
    const outputDir: string
    var results: seq<PhaseResult>
    var progressFile: Option<Document>

    /** `__init__` before it loads progress: no results yet; the progress file is what is on disk. */
    constructor (projectRoot: string, dryRun: bool, progressFile: Option<Document>)
      ensures this.dryRun == dryRun && outputDir == projectRoot + "/scripts/outputs"
      ensures results == [] && this.progressFile == progressFile
    {
      this.dryRun := dryRun;
      this.outputDir := projectRoot + "/scripts/outputs";
      this.results := [];
      this.progressFile := progressFile;
    }

    /** `load_progress`: replace the results by the file's, if there is a file and it loads. */
    method LoadProgress() returns (error: Option<LoadError>)
      modifies this`results
      ensures progressFile.None? ==> results == old(results) && error == None
      ensures progressFile.Some? && LoadResults(progressFile.value).Ok? ==>
        results == LoadResults(progressFile.value).value && error == None
      ensures progressFile.Some? && LoadResults(progressFile.value).Err? ==>
        results == old(results) && error == Some(LoadResults(progressFile.value).error)
    {
      error := None;
      if progressFile.Some? {
        var loaded := LoadResults(progressFile.value);
        match loaded {
          case Ok(rs) => results := rs;
          case Err(e) => error := Some(e);
        }
      }
    }

    /** `save_progress`: the file is rewritten with every result; loading it gives them back. */
    method SaveProgress(now: string)
      modifies this`progressFile
      ensures progressFile == Some(SaveDocument(results, now))
      ensures Persists(progressFile, results)
    {
      progressFile := Some(SaveDocument(results, now));
      SaveLoadRoundTrip(results, now);
    }

    /** `execute_phase(n)`, with the subprocess's behaviour and the clock's readings given. */
    method ExecutePhase(n: int, launch: Launch, clock: Clock) returns (result: PhaseResult)
      requires IsPhase(n)
      ensures result == PhaseOutcome(n, dryRun, outputDir, launch, clock)
    {
      var info := Info(n);
      result := PhaseResult(n, info.name, InProgress, None, None, None, None, None, None);
      if dryRun {
        result := result.(status := Skipped, commandUsed := Some("/" + info.command));
        return;
      }
      var outputFile := LogPath(outputDir, n, clock.fileStamp);
      var command := CommandLine(info);
      result := result.(commandUsed := Some(command), startTime := Some(clock.started));
      match launch {
        case Exit(code) =>
          result := result.(endTime := Some(clock.ended), durationSeconds := Some(clock.elapsed), outputFile := Some(outputFile));
          if code == 0 {
            result := result.(status := Completed);
          } else {
            result := result.(status := Failed, errorMessage := Some(ExitMessage(code)));
          }
        case LaunchError(message) =>
          result := result.(status := Failed, errorMessage := Some(message), endTime := Some(clock.ended));
      }
    }

    /**
     * The body of the loop of `run_phases` for phase p: skip it, raise, or
     * execute it, upsert its result and save progress.
     */
    method RunStep(p: int, w: World) returns (step: Step)
      modifies this`results, this`progressFile
      ensures step == StepOf(old(results), p, dryRun, outputDir, w)
      ensures step.Ran? ==>
        results == Upsert(old(results), step.result) && progressFile == Some(SaveDocument(results, ClockOf(w, p).savedAt))
      ensures !step.Ran? ==> results == old(results) && progressFile == old(progressFile)
    {
      if !IsPhase(p) {
        return Pass;
      }
      var existing := FirstFor(results, p);
      if existing.Some? && existing.value.status == Completed {
        if existing.value.durationSeconds.None? {
          return Abort;
        }
        return Pass;
      }
      var result := ExecutePhase(p, LaunchOf(w, p), ClockOf(w, p));
      results := Upsert(results, result);
      SaveProgress(ClockOf(w, p).savedAt);
      step := Ran(result);
    }

    /**
     * The loop of `run_phases` over a resolved plan. The new results are
     * the specified run's; after every executed phase the progress file
     * holds exactly the results in memory; a walk that executes nothing
     * leaves the file alone.
     */
    method RunPlan(plan: seq<int>, w: World) returns (stop: Stop, ghost executed: seq<int>)
      modifies this`results, this`progressFile
      ensures Execution(old(results), plan, dryRun, outputDir, w) == Run(results, executed, stop)
      ensures progressFile == FileAfter(old(progressFile), results, executed, w)
    {
      ghost var start := results;
      stop := Finished;
      executed := [];
      var i := 0;
      while i < |plan|
        invariant 0 <= i <= |plan|
        invariant After(executed, Execution(results, plan[i..], dryRun, outputDir, w)) == Execution(start, plan, dryRun, outputDir, w)
        invariant stop == Finished
        invariant progressFile == FileAfter(old(progressFile), results, executed, w)
      {
        var p := plan[i];
        assert plan[i..][1..] == plan[i + 1..];
        UnfoldStep(results, plan[i..], dryRun, outputDir, w);
        var step := RunStep(p, w);
        match step {
          case Pass =>
            i := i + 1;
          case Abort =>
            stop := MissingDuration(p);
            break;
          case Ran(result) =>
            AfterAfter(executed, [p], Execution(results, plan[i + 1..], dryRun, outputDir, w));
            assert (executed + [p])[|executed|] == p;
            executed := executed + [p];
            if result.status == Failed {
              stop := StoppedOnFailure(p);
              break;
            }
            i := i + 1;
        }
      }
    }

    /**
     * `run_phases(selection)`: resolve the plan (a bad selection raises
     * before anything runs), walk it, then report, unless the walk raised.
     */
    method RunPhases(selection: string, w: World)
      returns (outcome: Result<Stop, PlanError>, report: Option<Summary>, ghost executed: seq<int>)
      modifies this`results, this`progressFile
      ensures ResolvePlan(selection).Err? ==>
        && outcome == Err(ResolvePlan(selection).error) && report == None && executed == []
        && results == old(results) && progressFile == old(progressFile)
      ensures ResolvePlan(selection).Ok? ==>
        var run := Execution(old(results), ResolvePlan(selection).value, dryRun, outputDir, w);
        && outcome == Ok(run.stop) && results == run.results && executed == run.executed
        && report == (if run.stop.MissingDuration? then None else Report(results))
        && progressFile == FileAfter(old(progressFile), results, executed, w)
        && (executed != [] ==> Persists(progressFile, results))
    {
      var plan := ResolvePlan(selection);
      if plan.Err? {
        return Err(plan.error), None, [];
      }
      var stop;
      stop, executed := RunPlan(plan.value, w);
      if executed != [] {
        FileAfterPersists(old(progressFile), results, executed, w);
      }
      outcome := Ok(stop);
      report := if stop.MissingDuration? then None else Report(results);
    }

    /** `resume_from(k)`: run the selection "k-7". */
    method ResumeFrom(k: int, w: World)
      returns (outcome: Result<Stop, PlanError>, report: Option<Summary>, ghost executed: seq<int>)
      modifies this`results, this`progressFile
      ensures ResumePlan(k).Err? ==>
        && outcome == Err(ResumePlan(k).error) && report == None && executed == []
        && results == old(results) && progressFile == old(progressFile)
      ensures ResumePlan(k).Ok? ==>
        var run := Execution(old(results), ResumePlan(k).value, dryRun, outputDir, w);
        && outcome == Ok(run.stop) && results == run.results && executed == run.executed
        && report == (if run.stop.MissingDuration? then None else Report(results))
        && progressFile == FileAfter(old(progressFile), results, executed, w)
        && (executed != [] ==> Persists(progressFile, results))
    {
      outcome, report, executed := RunPhases(IntToString(k) + "-" + IntToString(MaxPhaseId()), w);
    }
  }

  /**
   * `DocJaysOrchestrator(project_root, dry_run)`: the object is set up and
   * its progress loaded; a progress file that does not load makes the
   * construction raise.
   */
  method NewOrchestrator(projectRoot: string, dryRun: bool, progressFile: Option<Document>)
    returns (r: Result<DocJaysOrchestrator, LoadError>)
    ensures progressFile.Some? && LoadResults(progressFile.value).Err? ==> r == Err(LoadResults(progressFile.value).error)
    ensures r.Ok? ==>
      && fresh(r.value)
      && r.value.dryRun == dryRun && r.value.outputDir == projectRoot + "/scripts/outputs"
      && r.value.progressFile == progressFile
      && r.value.results == (if progressFile.Some? then LoadResults(progressFile.value).value else [])
    ensures r.Ok? <==> progressFile.None? || LoadResults(progressFile.value).Ok?
  {
    var o := new DocJaysOrchestrator(projectRoot, dryRun, progressFile);
    var error := o.LoadProgress();
    if error.Some? {
      return Err(error.value);
    }
    return Ok(o);
  }
}
