/**
 * The workflow HTTP controllers: `isWorkflowType`, the manual trigger, and
 * the schedule update with its patch filtering. The trigger and the
 * dashboard service are parameters; the listing controllers only forward
 * what the service returns and are not part of this model.
 */
module WorkflowsController {
  import opened Optional
  import opened JsText
  import opened JsonValue
  import WorkflowTypes

  const InvalidParams := -32602
  const InternalError := -32603
  /** "Invalid workflow". */
  const InvalidWorkflow := "\U{65E0}\U{6548}\U{7684}\U{5DE5}\U{4F5C}\U{6D41}"
  /** "Failed to trigger the workflow", the message when something other than an `Error` is thrown. */
  const TriggerFailed := "\U{89E6}\U{53D1}\U{5DE5}\U{4F5C}\U{6D41}\U{5931}\U{8D25}"

  /** `isWorkflowType`: a non-empty value among the enum's values. */
  predicate IsWorkflowType(value: Option<string>) {
    Truthy(value) && value.value in WorkflowTypes.WorkflowTypeValues
  }

  /** What a `throw` inside `triggerWorkflow` carries. */
  datatype Thrown = ErrorThrown(message: string) | OtherThrown

  /** An `errorResponse`, or a JSON response of the value `R`. */
  datatype Reply<R> = Rejected(status: int, code: int, message: string) | Json(body: R)

  /** The arguments of `triggerWorkflow`. */
  datatype TriggerRequest<P> = TriggerRequest(workflowType: string, payload: P, trigger: Option<string>)

  /** `triggerWorkflowController`, with `triggerWorkflow` given as `run`. */
  function TriggerController<P, R>(workflowId: Option<string>, payload: P, trigger: Option<string>,
                                  run: TriggerRequest<P> -> Result<R, Thrown>): (reply: Reply<R>)
    ensures !IsWorkflowType(workflowId) ==> reply == Rejected(400, InvalidParams, InvalidWorkflow)
    ensures IsWorkflowType(workflowId) ==>
      var outcome := run(TriggerRequest(workflowId.value, payload, trigger));
      (outcome.Ok? ==> reply == Json(outcome.value))
      && (outcome.Err? ==> reply.Rejected? && reply.status == 500 && reply.code == InternalError)
      && (outcome == Err(OtherThrown) ==> reply.message == TriggerFailed)
      && (outcome.Err? && outcome.error.ErrorThrown? ==> reply.message == outcome.error.message)
  {
    if !IsWorkflowType(workflowId) then Rejected(400, InvalidParams, InvalidWorkflow)
    else
      match run(TriggerRequest(workflowId.value, payload, trigger))
      case Ok(result) => Json(result)
      case Err(ErrorThrown(m)) => Rejected(500, InternalError, m)
      case Err(OtherThrown) => Rejected(500, InternalError, TriggerFailed)
  }

  /** The request body of the schedule update, as parsed JSON; an absent field is `None`. */
  datatype SchedulePayload = SchedulePayload(cron: Option<Json>, timezone: Option<Json>, isEnabled: Option<Json>)

  /** The `SchedulePatch` passed on to the service. */
  datatype SchedulePatch = SchedulePatch(cron: Option<Json>, timezone: Option<Json>, isEnabled: Option<bool>)

  predicate PresentAndTruthy(v: Option<Json>) {
    v.Some? && JsTruthy(v.value)
  }

  /** The patch: `cron` and `timezone` when truthy, `isEnabled` when it is a boolean. */
  function PatchOf(payload: SchedulePayload): (patch: SchedulePatch)
    ensures patch.cron.Some? <==> PresentAndTruthy(payload.cron)
    ensures patch.cron.Some? ==> patch.cron == payload.cron
    ensures patch.timezone.Some? <==> PresentAndTruthy(payload.timezone)
    ensures patch.timezone.Some? ==> patch.timezone == payload.timezone
    ensures patch.isEnabled.Some? <==> payload.isEnabled.Some? && payload.isEnabled.value.JBool?
    ensures patch.isEnabled.Some? ==> payload.isEnabled == Some(JBool(patch.isEnabled.value))
  {
    SchedulePatch(
      if PresentAndTruthy(payload.cron) then payload.cron else None,
      if PresentAndTruthy(payload.timezone) then payload.timezone else None,
      if payload.isEnabled.Some? && payload.isEnabled.value.JBool? then Some(payload.isEnabled.value.b) else None)
  }

  /** `updateWorkflowScheduleController`, with `updateWorkflowSchedule` given as `update`. */
  function UpdateScheduleController<R>(workflowId: Option<string>, payload: SchedulePayload,
                                       update: (string, SchedulePatch) -> R): (reply: Reply<R>)
    ensures !IsWorkflowType(workflowId) ==> reply == Rejected(400, InvalidParams, InvalidWorkflow)
    ensures IsWorkflowType(workflowId) ==> reply == Json(update(workflowId.value, PatchOf(payload)))
  {
    if !IsWorkflowType(workflowId) then Rejected(400, InvalidParams, InvalidWorkflow)
    else Json(update(workflowId.value, PatchOf(payload)))
  }

  /** The workflow ids the controllers accept are exactly the three enum values. */
  lemma WorkflowTypeIff(value: Option<string>)
    ensures IsWorkflowType(value) <==>
      value == Some(WorkflowTypes.WeixinArticle) || value == Some(WorkflowTypes.WeixinAIBench)
      || value == Some(WorkflowTypes.WeixinHelloGithub)
  {
  }

  /** An unknown workflow is refused whatever the trigger would do: it is never called. */
  lemma UnknownWorkflowNotTriggered<P, R>(workflowId: Option<string>, payload: P, trigger: Option<string>,
                                          run1: TriggerRequest<P> -> Result<R, Thrown>,
                                          run2: TriggerRequest<P> -> Result<R, Thrown>)
    requires !IsWorkflowType(workflowId)
    ensures TriggerController(workflowId, payload, trigger, run1) == TriggerController(workflowId, payload, trigger, run2)
    ensures TriggerController(workflowId, payload, trigger, run1).Rejected?
  {
  }

  /** An unknown workflow's schedule is refused whatever the service would do. */
  lemma UnknownWorkflowNotUpdated<R>(workflowId: Option<string>, payload: SchedulePayload,
                                     update1: (string, SchedulePatch) -> R, update2: (string, SchedulePatch) -> R)
    requires !IsWorkflowType(workflowId)
    ensures UpdateScheduleController(workflowId, payload, update1) == UpdateScheduleController(workflowId, payload, update2)
  {
  }

  /** Falsy or absent cron and timezone and a missing or non-boolean `isEnabled` change nothing: the patch is empty. */
  lemma FalsyFieldsDropped(payload: SchedulePayload)
    requires !PresentAndTruthy(payload.cron) && !PresentAndTruthy(payload.timezone)
    requires payload.isEnabled.None? || !payload.isEnabled.value.JBool?
    ensures PatchOf(payload) == SchedulePatch(None, None, None)
  {
  }

  /** An empty cron, a null timezone and the string "true" as `isEnabled` give the empty patch. */
  lemma FalsyFieldsExample()
    ensures PatchOf(SchedulePayload(Some(JStr("")), Some(JNull), Some(JStr("true")))) == SchedulePatch(None, None, None)
  {
  }

  /** Filtering a patch twice keeps it: the patch, read back as a payload, gives itself. */
  lemma PatchIdempotent(payload: SchedulePayload)
    ensures var p := PatchOf(payload);
      PatchOf(SchedulePayload(p.cron, p.timezone, if p.isEnabled.Some? then Some(JBool(p.isEnabled.value)) else None)) == p
  {
  }

  /** `isEnabled: false` is kept, unlike a falsy cron. */
  lemma DisablingIsKept(cron: Option<Json>, timezone: Option<Json>)
    ensures PatchOf(SchedulePayload(cron, timezone, Some(JBool(false)))).isEnabled == Some(false)
  {
  }
}
