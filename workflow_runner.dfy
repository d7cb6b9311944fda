/**
 * `runWorkflow`: record the start of a run, execute the workflow, record the
 * end as "success" or "failed" and return the run id or re-throw.
 * The dashboard calls are modelled on the schedule table of
 * `WorkflowDashboard`; the workflow's `execute` and the clock are parameters.
 */
module WorkflowRunner {
  import opened Optional
  import opened WorkflowDashboard

  /** The effects of a run, in the order they happen. */
  datatype Event =
    | RunStarted(runId: string, workflowId: string, workflowName: string, trigger: string)
    | Executed(eventId: string, timestamp: int)
    | RunEnded(runId: string, status: string, durationMs: int, error: Option<string>)

  /** How `runWorkflow` finishes: it returns `{ runId }` or throws. */
  datatype RunOutcome = Returned(runId: string) | Threw(error: string)

  /**
   * The environment of one run:
   * - `executeError`: the message `execute` throws, if it throws;
   * - `successEndError` / `failedEndError`: the message a `recordRunEnd` call throws, if it throws;
   * - `clock(k)`: the k-th reading of the clock; the start is reading 0, the
   *   event timestamp reading 1, and each `finishedAt` the next reading.
   */
  datatype Environment = Environment(
    executeError: Option<string>,
    successEndError: Option<string>,
    failedEndError: Option<string>,
    clock: nat -> int,
    toIso: int -> string)

  /** The workflow name `runWorkflow` passes: the preset's name, else the type itself. */
  function RunName(presets: seq<Preset>, workflowType: string): string {
    if PresetById(presets, workflowType).Some? then PresetById(presets, workflowType).value.name else workflowType
  }

  /** The end record of a run that finished at clock reading `k`. */
  function EndEvent(runId: string, status: string, env: Environment, k: nat, error: Option<string>): Event {
    RunEnded(runId, status, env.clock(k) - env.clock(0), error)
  }

  /** The schedule table after `recordRunEnd` for a run that finished at reading `k`. */
  function EndStats(schedules: Schedules, workflowType: string, status: string, env: Environment, k: nat): Schedules {
    UpdateScheduleStats(schedules, workflowType, status, env.toIso(env.clock(k)), env.clock(k) - env.clock(0))
  }

  /** The error that reaches the catch block, if any: `execute`'s, else that of the "success" record. */
  function CaughtError(env: Environment): Option<string> {
    if env.executeError.Some? then env.executeError else env.successEndError
  }

  /** How the run finishes. */
  function OutcomeOf(freshId: string, env: Environment): RunOutcome {
    if CaughtError(env).None? then Returned(freshId)
    else if env.failedEndError.Some? then Threw(env.failedEndError.value)
    else Threw(CaughtError(env).value)
  }

  /** The end records of the run, in order: one per `recordRunEnd` call. */
  function EndEvents(freshId: string, env: Environment): seq<Event> {
    if env.executeError.Some? then [EndEvent(freshId, StatusFailed, env, 2, env.executeError)]
    else if env.successEndError.None? then [EndEvent(freshId, StatusSuccess, env, 2, None)]
    else [EndEvent(freshId, StatusSuccess, env, 2, None), EndEvent(freshId, StatusFailed, env, 3, env.successEndError)]
  }

  /** The effects of the run, in order. */
  function EventsOf(presets: seq<Preset>, workflowType: string, trigger: string, freshId: string, env: Environment): seq<Event> {
    [RunStarted(freshId, workflowType, RunName(presets, workflowType), trigger), Executed(freshId, env.clock(1))]
      + EndEvents(freshId, env)
  }

  /** The schedule table after the run: only the end record that completes changes it. */
  function AfterOf(schedules: Schedules, workflowType: string, env: Environment): Schedules {
    if CaughtError(env).None? then EndStats(schedules, workflowType, StatusSuccess, env, 2)
    else if env.failedEndError.Some? then schedules
    else EndStats(schedules, workflowType, StatusFailed, env, if env.executeError.Some? then 2 else 3)
  }

  /** `recordRunEnd` as `runWorkflow` calls it: with the workflow id, `finishedAt` and the elapsed time. */
  method RecordEnd(schedules: Schedules, workflowType: string, status: string, error: Option<string>, startedAt: int, finishedAt: int, toIso: int -> string)
    returns (after: Schedules)
    requires workflowType != ""
    ensures after == UpdateScheduleStats(schedules, workflowType, status, toIso(finishedAt), finishedAt - startedAt)
  {
    var ended := RecordRunEnd(schedules, status, EndOptions(error, None, Some(finishedAt), Some(workflowType), Some(finishedAt - startedAt)), finishedAt, toIso);
    after := ended.1;
  }

  /** The catch block: record the run as "failed" with `error` at clock reading `k`, then re-throw. */
  method CatchBlock(schedules: Schedules, workflowType: string, runId: string, error: string, startedAt: int, env: Environment, k: nat)
    returns (outcome: RunOutcome, ended: Event, after: Schedules)
    requires workflowType != ""
    ensures ended == RunEnded(runId, StatusFailed, env.clock(k) - startedAt, Some(error))
    ensures env.failedEndError.Some? ==> outcome == Threw(env.failedEndError.value) && after == schedules
    ensures env.failedEndError.None? ==>
      outcome == Threw(error) && after == UpdateScheduleStats(schedules, workflowType, StatusFailed, env.toIso(env.clock(k)), env.clock(k) - startedAt)
  {
    var finishedAt := env.clock(k);
    ended := RunEnded(runId, StatusFailed, finishedAt - startedAt, Some(error));
    if env.failedEndError.Some? {
      return Threw(env.failedEndError.value), ended, schedules;
    }
    after := RecordEnd(schedules, workflowType, StatusFailed, Some(error), startedAt, finishedAt, env.toIso);
    outcome := Threw(error);
  }

  /** `runWorkflow` for a run whose fresh UUID is `freshId`. */
  method RunWorkflow(presets: seq<Preset>, schedules: Schedules, workflowType: string, trigger: string, freshId: string, env: Environment)
    returns (outcome: RunOutcome, events: seq<Event>, after: Schedules)
    requires workflowType != ""  // a `WorkflowType` enum value
    ensures outcome == OutcomeOf(freshId, env)
    ensures events == EventsOf(presets, workflowType, trigger, freshId, env)
    ensures after == AfterOf(schedules, workflowType, env)
  {
    var start := RecordRunStart(presets, workflowType, Some(RunName(presets, workflowType)), trigger, None, freshId, env.clock(0), env.toIso);
    var runRecord := start.0;
    assert runRecord.id == freshId && runRecord.startedAt == env.clock(0) && runRecord.workflowName == RunName(presets, workflowType);
    var ends;
    outcome, ends, after := TryExecute(schedules, workflowType, runRecord.id, runRecord.startedAt, env);
    events := [RunStarted(runRecord.id, workflowType, runRecord.workflowName, trigger), Executed(runRecord.id, env.clock(1))] + ends;
  }

  /**
   * The `try`/`catch` of `runWorkflow` for the run `runId` started at
   * `startedAt`: execute, record "success", and on any error record
   * "failed" and re-throw.
   */
  method TryExecute(schedules: Schedules, workflowType: string, runId: string, startedAt: int, env: Environment)
    returns (outcome: RunOutcome, ends: seq<Event>, after: Schedules)
    requires workflowType != "" && startedAt == env.clock(0)
    ensures outcome == OutcomeOf(runId, env)
    ensures ends == EndEvents(runId, env)
    ensures after == AfterOf(schedules, workflowType, env)
  {
    var ended: Event;
    if env.executeError.Some? {
      outcome, ended, after := CatchBlock(schedules, workflowType, runId, env.executeError.value, startedAt, env, 2);
      ends := [ended];
      return;
    }
    var finishedAt := env.clock(2);
    ends := [RunEnded(runId, StatusSuccess, finishedAt - startedAt, None)];
    if env.successEndError.None? {
      after := RecordEnd(schedules, workflowType, StatusSuccess, None, startedAt, finishedAt, env.toIso);
      return Returned(runId), ends, after;
    }
    outcome, ended, after := CatchBlock(schedules, workflowType, runId, env.successEndError.value, startedAt, env, 3);
    ends := ends + [ended];
  }

  /** Exactly one start record comes first, then `execute` with the run's id; every later effect ends that run. */
  lemma StartThenExecute(presets: seq<Preset>, workflowType: string, trigger: string, freshId: string, env: Environment)
    ensures var events := EventsOf(presets, workflowType, trigger, freshId, env);
      |events| >= 3
      && events[0] == RunStarted(freshId, workflowType, RunName(presets, workflowType), trigger)
      && events[1] == Executed(freshId, env.clock(1))
      && (forall k :: 1 < k < |events| ==> events[k].RunEnded? && events[k].runId == freshId)
  {
  }

  /** A run returns exactly when `execute` and the "success" record both complete; it returns its own id after one "success" record. */
  lemma ReturnsIffCompleted(presets: seq<Preset>, workflowType: string, trigger: string, freshId: string, env: Environment)
    ensures OutcomeOf(freshId, env).Returned? <==> env.executeError.None? && env.successEndError.None?
    ensures OutcomeOf(freshId, env).Returned? ==>
      OutcomeOf(freshId, env).runId == freshId
      && EventsOf(presets, workflowType, trigger, freshId, env) == EventsOf(presets, workflowType, trigger, freshId, env)[..2] + [RunEnded(freshId, StatusSuccess, env.clock(2) - env.clock(0), None)]
  {
  }

  /**
   * Any error reaches the catch: the run is recorded "failed" with that error
   * and the error is re-thrown, unless recording fails, whose error then
   * escapes instead.
   */
  lemma ErrorsRecordedAsFailed(presets: seq<Preset>, workflowType: string, trigger: string, freshId: string, env: Environment)
    ensures var events := EventsOf(presets, workflowType, trigger, freshId, env);
      var error := CaughtError(env);
      OutcomeOf(freshId, env).Threw? ==>
        (error.Some?
         && events[|events| - 1].RunEnded? && events[|events| - 1].status == StatusFailed && events[|events| - 1].error == error
         && OutcomeOf(freshId, env).error == (if env.failedEndError.Some? then env.failedEndError.value else error.value))
  {
  }

  /** Every recorded duration is the time from the start to that end. */
  lemma DurationIsElapsed(presets: seq<Preset>, workflowType: string, trigger: string, freshId: string, env: Environment)
    ensures var events := EventsOf(presets, workflowType, trigger, freshId, env);
      forall k :: 1 < k < |events| ==> events[k].RunEnded? && events[k].durationMs == env.clock(k) - env.clock(0)
  {
  }

  /**
   * A run whose failure record does not fail counts once in its workflow's
   * statistics: as a success when it returned, as a failure when it threw.
   */
  lemma RunCountedOnce(schedules: Schedules, workflowType: string, freshId: string, env: Environment)
    requires workflowType in schedules && env.failedEndError.None?
    ensures var after := AfterOf(schedules, workflowType, env);
      var before := schedules[workflowType];
      workflowType in after
      && after[workflowType].successCount == Some(before.successCount.GetOr(0) + (if OutcomeOf(freshId, env).Returned? then 1 else 0))
      && after[workflowType].failureCount == Some(before.failureCount.GetOr(0) + (if OutcomeOf(freshId, env).Threw? then 1 else 0))
  {
  }
}
