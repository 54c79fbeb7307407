/**
 * The phase catalog, the status enumeration, the per-attempt result record
 * and the outcome of executing one phase (`execute_phase`).
 */
module Phases {
  import opened Wrappers
  import Text

  /** The five statuses of a phase; they carry no order. */
  datatype PhaseStatus = Pending | InProgress | Completed | Failed | Skipped

  /** A catalog entry: display name, command token, estimate and description. */
  datatype PhaseInfo = PhaseInfo(name: string, command: string, durationEstimate: string, description: string)

  /** The phase numbers the static catalog has an entry for. */
  predicate IsPhase(n: int) {
    1 <= n <= 7
  }

  /** The static catalog's entry for phase n. */
  function Info(n: int): PhaseInfo
    requires IsPhase(n)
  {
    match n
    case 1 => PhaseInfo("Database Foundation", "docjays-phase1", "1-2 weeks",
                        "Enhanced schema with taxonomy, lifecycle tracking, usage metadata")
    case 2 => PhaseInfo("Lifecycle Management APIs", "docjays-phase2", "1-2 weeks",
                        "Grounding API with metadata, approval workflow, lifecycle operations")
    case 3 => PhaseInfo("Compliance Checking", "docjays-phase3", "1-2 weeks",
                        "Real-time constraint enforcement, LLM-based compliance analysis")
    case 4 => PhaseInfo("Decision Extraction", "docjays-phase4", "1-2 weeks",
                        "Auto-extract decisions from PRs, commits, documents")
    case 5 => PhaseInfo("UI Enhancement", "docjays-phase5", "1-2 weeks",
                        "Governance dashboard, grounding modal, compliance UI")
    case 6 => PhaseInfo("MCP & CLI Tools", "docjays-phase6", "1-2 weeks",
                        "Enhanced MCP tools, CLI commands, workflow integration")
    case 7 => PhaseInfo("Testing & Deployment", "docjays-phase7", "1-2 weeks",
                        "Comprehensive testing, gradual rollout, monitoring")
  }

  /** The catalog's keys in the order the table lists them. */
  const CatalogOrder: seq<int> := [1, 2, 3, 4, 5, 6, 7]

  predicate StrictlyIncreasing(s: seq<int>) {
    forall i, j :: 0 <= i < j < |s| ==> s[i] < s[j]
  }

  /** `list(PHASES.keys())`: every catalog phase exactly once, ascending. */
  function AllPhases(): (ids: seq<int>)
    ensures StrictlyIncreasing(ids)
    ensures forall p :: p in ids <==> IsPhase(p)
  {
    CatalogOrder
  }

  /** `max(PHASES.keys())`. */
  function MaxPhaseId(): (m: int)
    ensures IsPhase(m)
    ensures forall p :: IsPhase(p) ==> p <= m
  {
    7
  }

  /**
   * One execution attempt. Timestamps are opaque strings; the duration is
   * the number of seconds between them, supplied by the clock.
   */
  datatype PhaseResult = PhaseResult(
    phaseNumber: int,
    phaseName: string,
    status: PhaseStatus,
    startTime: Option<string>,
    endTime: Option<string>,
    durationSeconds: Option<real>,
    errorMessage: Option<string>,
    commandUsed: Option<string>,
    outputFile: Option<string>)

  /**
   * How the attempt went up to the moment its end time is taken: the
   * command exited with a code, or an exception was raised before that
   * (launching it, opening the log file, or streaming its output), with the
   * exception's text.
   */
  datatype Launch = Exit(code: int) | LaunchError(message: string)

  /**
   * The wall-clock readings taken while one phase is handled: the stamp in
   * the log-file name, the start and end times, the seconds between them,
   * and the `last_updated` time of the save that follows.
   */
  datatype Clock = Clock(fileStamp: string, started: string, ended: string, elapsed: real, savedAt: string)

  /** The shell command line of a phase. */
  function CommandLine(info: PhaseInfo): string {
    "claude /" + info.command
  }

  /** The path of the phase's log file under the output directory. */
  function LogPath(outputDir: string, n: int, stamp: string): string {
    outputDir + "/phase" + Text.IntToString(n) + "_" + stamp + ".log"
  }

  function ExitMessage(code: int): string {
    "Command exited with code " + Text.IntToString(code)
  }

  /** The exit code an ExitMessage reports, read back from the message. */
  function ExitCodeOf(message: string): Option<int> {
    var prefix := "Command exited with code ";
    if |message| >= |prefix| && message[..|prefix|] == prefix then Text.ParseInt(message[|prefix|..]) else None
  }

  lemma ExitMessageNamesCode(code: int)
    ensures ExitCodeOf(ExitMessage(code)) == Some(code)
  {
    var prefix := "Command exited with code ";
    assert ExitMessage(code)[..|prefix|] == prefix;
    assert ExitMessage(code)[|prefix|..] == Text.IntToString(code);
    Text.ParseIntOfIntToString(code);
  }

  /** A status a finished attempt ends in. */
  predicate Terminal(s: PhaseStatus) {
    s == Completed || s == Failed || s == Skipped
  }

  /** A result whose status is terminal and whose error message matches it. */
  predicate Settled(r: PhaseResult) {
    && Terminal(r.status)
    && (r.errorMessage.Some? <==> r.status == Failed)
  }

  /**
   * The result `execute_phase(n)` returns, given the orchestrator's dry-run
   * flag and output directory, what the subprocess did and the clock.
   */
  function PhaseOutcome(n: int, dryRun: bool, outputDir: string, launch: Launch, clock: Clock): (r: PhaseResult)
    requires IsPhase(n)
    ensures r.phaseNumber == n && r.phaseName == Info(n).name
    ensures Settled(r)
    ensures r.status == Skipped <==> dryRun
    ensures r.durationSeconds.Some? ==> r.startTime.Some? && r.endTime.Some?
    ensures r.outputFile.Some? <==> r.durationSeconds.Some?
  {
    var info := Info(n);
    if dryRun then
      PhaseResult(n, info.name, Skipped, None, None, None, None, Some("/" + info.command), None)
    else
      match launch
      case Exit(code) =>
        PhaseResult(n, info.name, if code == 0 then Completed else Failed,
                    Some(clock.started), Some(clock.ended), Some(clock.elapsed),
                    if code == 0 then None else Some(ExitMessage(code)),
                    Some(CommandLine(info)), Some(LogPath(outputDir, n, clock.fileStamp)))
      case LaunchError(message) =>
        PhaseResult(n, info.name, Failed, Some(clock.started), Some(clock.ended), None,
                    Some(message), Some(CommandLine(info)), None)
  }

  /**
   * How the result follows from the mode and the subprocess: a dry run is
   * SKIPPED with the bare command and no times or log; exit code 0 is
   * COMPLETED; another code is FAILED naming the code; a launch error is
   * FAILED with the exception's text, an end time, and no duration or log.
   */
  lemma OutcomeDerivation(n: int, dryRun: bool, outputDir: string, launch: Launch, clock: Clock)
    requires IsPhase(n)
    ensures var r := PhaseOutcome(n, dryRun, outputDir, launch, clock);
      && (dryRun ==> r.status == Skipped && r.commandUsed == Some("/" + Info(n).command)
                     && r.startTime == None && r.endTime == None
                     && r.durationSeconds == None && r.outputFile == None)
      && (!dryRun ==> r.commandUsed == Some("claude /" + Info(n).command) && r.startTime == Some(clock.started)
                      && r.endTime == Some(clock.ended))
      && (!dryRun && launch == Exit(0) ==>
            r.status == Completed && r.durationSeconds == Some(clock.elapsed)
            && r.outputFile == Some(LogPath(outputDir, n, clock.fileStamp)))
      && (!dryRun && launch.Exit? && launch.code != 0 ==>
            r.status == Failed && r.errorMessage == Some("Command exited with code " + Text.IntToString(launch.code))
            && r.durationSeconds == Some(clock.elapsed) && r.outputFile == Some(LogPath(outputDir, n, clock.fileStamp)))
      && (!dryRun && launch.LaunchError? ==>
            r.status == Failed && r.errorMessage == Some(launch.message)
            && r.durationSeconds == None && r.outputFile == None)
  {
  }
}
