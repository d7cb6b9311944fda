/**
 * The workflow dashboard service: timestamp and preview formatting, the
 * schedule table (default rows, patches, run statistics), run records, the
 * latest status per workflow and the grouping of steps under their runs.
 * Database tables are values passed in and returned: the schedule table is a
 * map keyed by workflow id, query results are sequences in the order the
 * query returns them. Dates are milliseconds; `toISOString` is a parameter.
 */
module WorkflowDashboard {
  import opened Optional
  import opened JsText
  import opened HtmlText

  const StatusSuccess: string := "success"
  const StatusFailed: string := "failed"
  const StatusIdle: string := "idle"
  const StatusRunning: string := "running"

  /** `sanitizePreview`'s default limit. */
  const PreviewLimit: int := 220
  /** `getLatestRunStatus` reads the 64 most recent runs. */
  const LatestRunRows: nat := 64
  /** `listRuns`' default limit. */
  const RunListLimit: nat := 20

  /** An entry of `WORKFLOW_PRESETS`. */
  datatype Preset = Preset(id: string, name: string, description: string, defaultCron: string, timezone: string)

  /** The three presets of src/constants/workflows.ts; the enum values are in `WorkflowTypes`. */
  function WorkflowPresets(weixinArticle: string, weixinAIBench: string, weixinHelloGithub: string): seq<Preset> {
    [ Preset(weixinArticle, "Weixin Article", "每日精选技术文章采集并推送公众号", "0 3 * * *", "Asia/Shanghai"),
      Preset(weixinAIBench, "Weixin AI Bench", "AIBench 报告同步与总结", "0 12 * * 1,3,5", "Asia/Shanghai"),
      Preset(weixinHelloGithub, "Hello GitHub Picks", "自动汇总 HelloGitHub 人气项目", "0 9 * * 2,4", "Asia/Shanghai") ]
  }

  /** `WORKFLOW_PRESET_MAP.get(id)`: a `Map` built from entries keeps the last entry of a key. */
  function PresetById(presets: seq<Preset>, id: string): (r: Option<Preset>)
    ensures r.Some? ==> r.value in presets && r.value.id == id
    ensures r.None? <==> forall i :: 0 <= i < |presets| ==> presets[i].id != id
    decreases |presets|
  {
    if |presets| == 0 then None
    else if presets[|presets| - 1].id == id then Some(presets[|presets| - 1])
    else PresetById(presets[..|presets| - 1], id)
  }

  // ---------------------------------------------------------------------
  // formatTimestamp
  // ---------------------------------------------------------------------

  /** `iso.slice(0, 19).replace("T", " ")`, applied to the result of `toISOString`. */
  function FormatTimestamp(iso: string): string {
    ReplaceFirst(Prefix(iso, 19), 'T', ' ')
  }

  /** An ISO instant "YYYY-MM-DDTHH:MM:SS.sssZ" is shown as "YYYY-MM-DD HH:MM:SS". */
  lemma FormatTimestampOfIso(date: string, time: string, rest: string)
    requires |date| == 10 && |time| == 8
    requires forall i :: 0 <= i < |date| ==> date[i] != 'T'
    ensures FormatTimestamp(date + "T" + time + rest) == date + " " + time
  {
    assert Prefix(date + "T" + time + rest, 19) == date + ['T'] + time;
    ReplaceFirstAt(date, 'T', ' ', time);
  }

  // ---------------------------------------------------------------------
  // sanitizePreview
  // ---------------------------------------------------------------------

  /** Scripts and styles become a space, so do tags and `&nbsp;` (any case). */
  function PreviewMarkupRemoved(value: string): string {
    var t1 := ReplaceMatches(value, RawBlockIgnoreCase("<script", "</script>"), " ");
    var t2 := ReplaceMatches(t1, RawBlockIgnoreCase("<style", "</style>"), " ");
    var t3 := ReplaceMatches(t2, Tag, " ");
    ReplaceMatches(t3, Literal("&nbsp;", true), " ")
  }

  /** The plain text of a preview: markup removed, whitespace runs collapsed to one space, trimmed. */
  function PlainText(value: string): string {
    Trim(CollapseSpaces(PreviewMarkupRemoved(value)))
  }

  /** The stored preview: absent for empty input or empty plain text, cut to `limit` characters plus "..." when longer. */
  function SanitizePreview(value: Option<string>, limit: int): (r: Option<string>)
    ensures r.None? <==> !Truthy(value) || PlainText(value.value) == ""
  {
    if !Truthy(value) then None
    else
      var plain := PlainText(value.value);
      if plain == "" then None else Some(Shorten(plain, limit))
  }

  /** A text over the limit keeps its first `limit` characters and gains "..."; a shorter one is kept. */
  function Shorten(plain: string, limit: int): (r: string)
    ensures |plain| <= limit ==> r == plain
    ensures |plain| > limit >= 0 ==> |r| == limit + 3 && r[..limit] == plain[..limit] && r[limit..] == "..."
  {
    if |plain| > limit then SliceTo(plain, limit) + "..." else plain
  }

  /** A preview is tidy plain text, shortened only when over the limit and then to exactly the limit. */
  lemma SanitizePreviewShape(value: string, limit: int)
    requires limit >= 0
    requires PlainText(value) != ""
    ensures var r := SanitizePreview(Some(value), limit).value;
      var plain := PlainText(value);
      Tidy(plain)
      && (|plain| <= limit ==> r == plain)
      && (|plain| > limit ==> |r| == limit + 3 && r[..limit] == plain[..limit] && r[limit..] == "...")
  {
    CollapseThenTrimIsTidy(PreviewMarkupRemoved(value));
    assert SanitizePreview(Some(value), limit).value == Shorten(PlainText(value), limit);
  }

  // ---------------------------------------------------------------------
  // The schedule table
  // ---------------------------------------------------------------------

  /** A row of `workflow_schedules`; nullable columns are options. */
  datatype ScheduleRow = ScheduleRow(
    cron: string,
    timezone: string,
    isEnabled: int,
    nextRunAt: Option<string>,
    lastRunAt: Option<string>,
    lastDurationMs: Option<int>,
    successCount: Option<nat>,
    failureCount: Option<nat>,
    avgDurationMs: Option<int>)

  type Schedules = map<string, ScheduleRow>

  /** The row `ensureDefaultSchedules` inserts for a preset. */
  function DefaultSchedule(p: Preset): ScheduleRow {
    ScheduleRow(p.defaultCron, p.timezone, 1, None, None, None, None, None, None)
  }

  /** `ensureDefaultSchedules`: insert the default row of each preset that has none. */
  function EnsureDefaultSchedules(schedules: Schedules, presets: seq<Preset>): (r: Schedules)
    ensures forall id :: id in schedules ==> id in r && r[id] == schedules[id]
    decreases |presets|
  {
    if |presets| == 0 then schedules
    else
      var p := presets[0];
      EnsureDefaultSchedules(if p.id in schedules then schedules else schedules[p.id := DefaultSchedule(p)], presets[1..])
  }

  /** Afterwards every preset has a row, existing rows are untouched, and only presets gained rows. */
  lemma {:induction false} EnsureDefaultSchedulesCovers(schedules: Schedules, presets: seq<Preset>)
    ensures forall i :: 0 <= i < |presets| ==> presets[i].id in EnsureDefaultSchedules(schedules, presets)
    ensures forall id :: id in schedules ==> id in EnsureDefaultSchedules(schedules, presets) && EnsureDefaultSchedules(schedules, presets)[id] == schedules[id]
    ensures forall id :: id in EnsureDefaultSchedules(schedules, presets) ==> id in schedules || exists i :: 0 <= i < |presets| && presets[i].id == id
    decreases |presets|
  {
    if |presets| > 0 {
      var p := presets[0];
      var next := if p.id in schedules then schedules else schedules[p.id := DefaultSchedule(p)];
      EnsureDefaultSchedulesCovers(next, presets[1..]);
      var r := EnsureDefaultSchedules(schedules, presets);
      assert r == EnsureDefaultSchedules(next, presets[1..]);
      forall id | id in r
        ensures id in schedules || exists i :: 0 <= i < |presets| && presets[i].id == id
      {
        if id !in next {
          var i :| 0 <= i < |presets[1..]| && presets[1..][i].id == id;
          assert presets[i + 1].id == id;
        } else if id !in schedules {
          assert presets[0].id == id;
        }
      }
      forall i | 0 <= i < |presets|
        ensures presets[i].id in r
      {
        if i > 0 {
          assert presets[1..][i - 1] == presets[i];
        } else {
          assert p.id in next;
        }
      }
    }
  }

  /** The fields `updateWorkflowSchedule` may change; absent fields keep their stored values. */
  datatype SchedulePatch = SchedulePatch(cron: Option<string>, timezone: Option<string>, isEnabled: Option<bool>)

  /** The schedule as the dashboard shows it. */
  datatype ScheduleView = ScheduleView(
    cron: string,
    timezone: string,
    isEnabled: bool,
    nextRunAt: Option<string>,
    lastRunAt: Option<string>,
    lastDurationMs: Option<int>)

  function ScheduleNotFound(workflowId: string): string {
    "Workflow " + workflowId + " schedule not found"
  }

  /**
   * `updateWorkflowSchedule`: default rows are ensured first; a missing row
   * is an error; otherwise the patch is merged with `??` and stored.
   */
  function UpdateWorkflowSchedule(schedules: Schedules, presets: seq<Preset>, workflowId: string, patch: SchedulePatch): (r: Result<(ScheduleView, Schedules), string>)
    ensures r.Err? <==> workflowId !in EnsureDefaultSchedules(schedules, presets)
    ensures r.Err? ==> r.error == ScheduleNotFound(workflowId)
  {
    var ensured := EnsureDefaultSchedules(schedules, presets);
    if workflowId !in ensured then Err(ScheduleNotFound(workflowId))
    else
      var record := ensured[workflowId];
      var cron := patch.cron.GetOr(record.cron);
      var timezone := patch.timezone.GetOr(record.timezone);
      var isEnabled := patch.isEnabled.GetOr(record.isEnabled != 0);
      var stored := record.(cron := cron, timezone := timezone, isEnabled := if isEnabled then 1 else 0);
      Ok((ScheduleView(cron, timezone, isEnabled, record.nextRunAt, record.lastRunAt, record.lastDurationMs), ensured[workflowId := stored]))
  }

  /**
   * Patch fields override and absent fields keep the stored values; the other
   * columns and every other workflow's row are unchanged; a preset never fails.
   */
  lemma UpdateWorkflowScheduleMerges(schedules: Schedules, presets: seq<Preset>, workflowId: string, patch: SchedulePatch)
    ensures (exists i :: 0 <= i < |presets| && presets[i].id == workflowId) ==> UpdateWorkflowSchedule(schedules, presets, workflowId, patch).Ok?
    ensures var r := UpdateWorkflowSchedule(schedules, presets, workflowId, patch);
      var ensured := EnsureDefaultSchedules(schedules, presets);
      r.Ok? ==>
        var (view, after) := r.value;
        var before := ensured[workflowId];
        view.cron == (if patch.cron.Some? then patch.cron.value else before.cron)
        && view.timezone == (if patch.timezone.Some? then patch.timezone.value else before.timezone)
        && view.isEnabled == (if patch.isEnabled.Some? then patch.isEnabled.value else before.isEnabled != 0)
        && after[workflowId].cron == view.cron && after[workflowId].timezone == view.timezone
        && after[workflowId].isEnabled == (if view.isEnabled then 1 else 0)
        && after[workflowId].successCount == before.successCount
        && after[workflowId].avgDurationMs == before.avgDurationMs
        && (forall id :: id in ensured && id != workflowId ==> id in after && after[id] == ensured[id])
  {
    EnsureDefaultSchedulesCovers(schedules, presets);
  }

  // ---------------------------------------------------------------------
  // updateScheduleStats
  // ---------------------------------------------------------------------

  /** `Math.round(num / den)` for a positive denominator: the floor of num/den + 1/2. */
  function RoundDiv(num: int, den: int): int
    requires den > 0
  {
    (2 * num + den) / (2 * den)
  }

  /** Multiplying by a positive factor keeps the order of two numbers, both ways. */
  lemma MulOrder(a: int, b: int, c: int)
    requires c > 0
    ensures a < b ==> a * c < b * c
    ensures a * c < b * c ==> a < b
  {
    assert b * c - a * c == (b - a) * c;
  }

  /** `x / b >= q` when `q * b <= x`, and `x / b <= q` when `x < (q + 1) * b`. */
  lemma DivBounds(x: int, b: int, q: int)
    requires b > 0
    ensures q * b <= x ==> q <= x / b
    ensures x < q * b + b ==> x / b <= q
  {
    var d := x / b;
    assert x == d * b + x % b && 0 <= x % b < b;
    assert (d + 1) * b == d * b + b;
    assert (q + 1) * b == q * b + b;
    MulOrder(q, d + 1, b);
    MulOrder(d, q + 1, b);
  }

  /** Rounding an exact quotient gives the quotient. */
  lemma RoundDivExact(k: int, den: int)
    requires den > 0
    ensures RoundDiv(k * den, den) == k
  {
    var x := 2 * (k * den) + den;
    assert x == k * (2 * den) + den;
    DivBounds(x, 2 * den, k);
  }

  /** The running mean: the new duration when there was no mean yet, else the rounded weighted mean. */
  function NextAverage(prevAvg: int, totalRuns: nat, durationMs: int): int
    requires totalRuns >= 1
  {
    if prevAvg == 0 then durationMs else RoundDiv(prevAvg * (totalRuns - 1) + durationMs, totalRuns)
  }

  /** A rounded mean of `n` values all between `lo` and `hi` lies between `lo` and `hi`. */
  lemma RoundDivBetween(num: int, n: int, lo: int, hi: int)
    requires n > 0 && lo * n <= num <= hi * n
    ensures lo <= RoundDiv(num, n) <= hi
  {
    var x := 2 * num + n;
    var b := 2 * n;
    assert lo * b == 2 * (lo * n);
    assert hi * b == 2 * (hi * n);
    assert lo * b <= x < hi * b + b;
    DivBounds(x, b, lo);
    DivBounds(x, b, hi);
  }

  /** The new mean lies between the previous mean and the new duration. */
  lemma NextAverageBetween(prevAvg: int, totalRuns: nat, durationMs: int)
    requires totalRuns >= 1
    ensures prevAvg <= durationMs ==> prevAvg <= NextAverage(prevAvg, totalRuns, durationMs) <= durationMs
    ensures durationMs <= prevAvg ==> durationMs <= NextAverage(prevAvg, totalRuns, durationMs) <= prevAvg
  {
    if prevAvg != 0 {
      var n := totalRuns;
      var num := prevAvg * (n - 1) + durationMs;
      assert prevAvg * n == prevAvg * (n - 1) + prevAvg;
      assert durationMs * n == durationMs * (n - 1) + durationMs;
      if prevAvg <= durationMs {
        MulMonotone(prevAvg, durationMs, n - 1);
        RoundDivBetween(num, n, prevAvg, durationMs);
      } else {
        MulMonotone(durationMs, prevAvg, n - 1);
        RoundDivBetween(num, n, durationMs, prevAvg);
      }
    }
  }

  lemma MulMonotone(a: int, b: int, c: nat)
    requires a <= b
    ensures a * c <= b * c
  {
    assert b * c - a * c == (b - a) * c;
  }

  /** The mean of equal durations stays put. */
  lemma NextAverageSteady(avg: int, totalRuns: nat)
    requires totalRuns >= 1
    ensures NextAverage(avg, totalRuns, avg) == avg
  {
    if avg != 0 {
      assert avg * (totalRuns - 1) + avg == avg * totalRuns;
      RoundDivExact(avg, totalRuns);
    }
  }

  /** The row after a run of `status` ended at `finishedIso` after `durationMs`. */
  function StatsAfterRun(row: ScheduleRow, status: string, finishedIso: string, durationMs: int): (r: ScheduleRow)
    ensures r.successCount == Some(row.successCount.GetOr(0) + (if status == StatusSuccess then 1 else 0))
    ensures r.failureCount == Some(row.failureCount.GetOr(0) + (if status == StatusFailed then 1 else 0))
    ensures r.lastDurationMs == Some(durationMs)
    ensures r.cron == row.cron && r.timezone == row.timezone && r.isEnabled == row.isEnabled && r.nextRunAt == row.nextRunAt
  {
    var success := row.successCount.GetOr(0);
    var failure := row.failureCount.GetOr(0);
    var totalRuns := success + failure + 1;
    row.(
      lastRunAt := Some(FormatTimestamp(finishedIso)),
      lastDurationMs := Some(durationMs),
      successCount := Some(success + if status == StatusSuccess then 1 else 0),
      failureCount := Some(failure + if status == StatusFailed then 1 else 0),
      avgDurationMs := Some(NextAverage(row.avgDurationMs.GetOr(0), totalRuns, durationMs)))
  }

  /** `updateScheduleStats`: a workflow without a schedule row is skipped. */
  function UpdateScheduleStats(schedules: Schedules, workflowId: string, status: string, finishedIso: string, durationMs: int): (r: Schedules)
    ensures workflowId !in schedules ==> r == schedules
    ensures workflowId in schedules ==> r == schedules[workflowId := StatsAfterRun(schedules[workflowId], status, finishedIso, durationMs)]
  {
    if workflowId !in schedules then schedules
    else schedules[workflowId := StatsAfterRun(schedules[workflowId], status, finishedIso, durationMs)]
  }

  /** Exactly one counter moves for "success" and "failed", none for other statuses, and runs are counted once. */
  lemma CountersTrackStatus(row: ScheduleRow, status: string, finishedIso: string, durationMs: int)
    ensures var r := StatsAfterRun(row, status, finishedIso, durationMs);
      var before := row.successCount.GetOr(0) + row.failureCount.GetOr(0);
      var after := r.successCount.value + r.failureCount.value;
      (status == StatusSuccess || status == StatusFailed <==> after == before + 1)
      && (status != StatusSuccess && status != StatusFailed <==> after == before)
      && (r.successCount.value > row.successCount.GetOr(0) <==> status == StatusSuccess)
  {
  }

  // ---------------------------------------------------------------------
  // recordRunStart / recordRunEnd
  // ---------------------------------------------------------------------

  /** The row inserted into `workflow_runs` when a run starts. */
  datatype RunInsert = RunInsert(id: string, workflowId: string, workflowName: string, status: string, trigger: string, startedAt: string)

  /** What `recordRunStart` returns. */
  datatype RunStart = RunStart(id: string, workflowId: string, workflowName: string, startedAt: int)

  /** `recordRunStart`: the id is the given one or a fresh UUID; the name falls back to the preset's, then to the id. */
  function RecordRunStart(presets: seq<Preset>, workflowId: string, workflowName: Option<string>, trigger: string,
                          runId: Option<string>, freshId: string, now: int, toIso: int -> string): (r: (RunStart, RunInsert))
    ensures r.0.id == r.1.id && r.0.workflowName == r.1.workflowName && r.0.workflowId == r.1.workflowId == workflowId
    ensures r.1.status == StatusRunning && r.0.startedAt == now
    ensures r.0.id == (if runId.Some? then runId.value else freshId)
    ensures workflowName.None? && PresetById(presets, workflowId).None? ==> r.0.workflowName == workflowId
  {
    var id := runId.GetOr(freshId);
    var name := if workflowName.Some? then workflowName.value
                else if PresetById(presets, workflowId).Some? then PresetById(presets, workflowId).value.name
                else workflowId;
    (RunStart(id, workflowId, name, now), RunInsert(id, workflowId, name, StatusRunning, trigger, FormatTimestamp(toIso(now))))
  }

  /** `recordRunEnd`'s options; `error` is the message of the error passed, if any. */
  datatype EndOptions = EndOptions(
    error: Option<string>,
    resultSummary: Option<string>,
    finishedAt: Option<int>,
    workflowId: Option<string>,
    durationMs: Option<int>)

  /** The columns `recordRunEnd` sets on the run row; an absent field is not written. */
  datatype RunEndUpdate = RunEndUpdate(status: string, finishedAt: string, durationMs: Option<int>, resultSummary: Option<string>)

  /** `options.resultSummary ?? (options.error ? options.error.message : undefined)`. */
  function ResultSummary(options: EndOptions): (r: Option<string>)
    ensures options.resultSummary.Some? ==> r == options.resultSummary
    ensures options.resultSummary.None? ==> r == options.error
  {
    if options.resultSummary.Some? then options.resultSummary
    else if options.error.Some? then Some(options.error.value)
    else None
  }

  /** `recordRunEnd`: update the run row, then the statistics when a (non-empty) workflow id and a duration are given. */
  function RecordRunEnd(schedules: Schedules, status: string, options: EndOptions, now: int, toIso: int -> string): (r: (RunEndUpdate, Schedules))
    ensures r.0.status == status && r.0.durationMs == options.durationMs && r.0.resultSummary == ResultSummary(options)
    ensures !Truthy(options.workflowId) || options.durationMs.None? ==> r.1 == schedules
    ensures Truthy(options.workflowId) && options.durationMs.Some? ==>
      r.1 == UpdateScheduleStats(schedules, options.workflowId.value, status, toIso(options.finishedAt.GetOr(now)), options.durationMs.value)
  {
    var finishedAt := options.finishedAt.GetOr(now);
    var update := RunEndUpdate(status, FormatTimestamp(toIso(finishedAt)), options.durationMs, ResultSummary(options));
    if Truthy(options.workflowId) && options.durationMs.Some? then
      (update, UpdateScheduleStats(schedules, options.workflowId.value, status, toIso(finishedAt), options.durationMs.value))
    else (update, schedules)
  }

  /** The row `recordWorkflowResult` inserts into `workflow_results`. */
  datatype ResultInsert = ResultInsert(id: string, workflowId: string, workflowName: string, status: string,
                                       generatedAt: string, outputUrl: Option<string>, preview: Option<string>)

  /** `recordWorkflowResult`: the name falls back as in `recordRunStart`; the preview is sanitized with the default limit. */
  function RecordWorkflowResult(presets: seq<Preset>, workflowId: string, workflowName: Option<string>, status: string,
                                preview: Option<string>, outputUrl: Option<string>, freshId: string, now: int, toIso: int -> string): (r: ResultInsert)
    ensures r.preview == SanitizePreview(preview, PreviewLimit) && r.outputUrl == outputUrl && r.id == freshId
    ensures workflowName.Some? ==> r.workflowName == workflowName.value
    ensures workflowName.None? ==> r.workflowName == (if PresetById(presets, workflowId).Some? then PresetById(presets, workflowId).value.name else workflowId)
  {
    var name := if workflowName.Some? then workflowName.value
                else if PresetById(presets, workflowId).Some? then PresetById(presets, workflowId).value.name
                else workflowId;
    ResultInsert(freshId, workflowId, name, status, FormatTimestamp(toIso(now)), outputUrl, SanitizePreview(preview, PreviewLimit))
  }

  // ---------------------------------------------------------------------
  // getLatestRunStatus
  // ---------------------------------------------------------------------

  /** A row of `workflow_runs`. */
  datatype RunRow = RunRow(
    id: string,
    workflowId: string,
    workflowName: string,
    startedAt: Option<string>,
    finishedAt: Option<string>,
    status: string,
    trigger: string,
    resultSummary: Option<string>)

  /** The status map after scanning `rows` in order, setting a workflow only the first time it is seen. */
  function StatusMapOf(rows: seq<RunRow>): map<string, string>
    decreases |rows|
  {
    if |rows| == 0 then map[]
    else
      var m := StatusMapOf(rows[..|rows| - 1]);
      var last := rows[|rows| - 1];
      if last.workflowId in m then m else m[last.workflowId := last.status]
  }

  /** The map holds exactly the workflows that have a row, each with the status of its first row. */
  lemma StatusMapFirstRowWins(rows: seq<RunRow>)
    ensures forall id :: id in StatusMapOf(rows) <==> exists k :: 0 <= k < |rows| && rows[k].workflowId == id
    ensures forall k :: 0 <= k < |rows| && (forall j :: 0 <= j < k ==> rows[j].workflowId != rows[k].workflowId) ==>
      StatusMapOf(rows)[rows[k].workflowId] == rows[k].status
  {
    StatusMapKeys(rows);
    StatusMapFirstRow(rows);
  }

  /** The map holds exactly the workflows that have a row. */
  lemma {:induction false} StatusMapKeys(rows: seq<RunRow>)
    ensures forall id :: id in StatusMapOf(rows) <==> exists k :: 0 <= k < |rows| && rows[k].workflowId == id
    decreases |rows|
  {
    if |rows| > 0 {
      var init := rows[..|rows| - 1];
      StatusMapKeys(init);
      var m := StatusMapOf(rows);
      forall id
        ensures id in m <==> exists k :: 0 <= k < |rows| && rows[k].workflowId == id
      {
        if exists k :: 0 <= k < |rows| && rows[k].workflowId == id {
          var k :| 0 <= k < |rows| && rows[k].workflowId == id;
          if k < |init| {
            assert init[k].workflowId == id;
          }
        }
        if id in StatusMapOf(init) {
          var k :| 0 <= k < |init| && init[k].workflowId == id;
          assert rows[k].workflowId == id;
        }
      }
    }
  }

  /** A workflow's first row decides its status in the map. */
  lemma {:induction false} StatusMapFirstRow(rows: seq<RunRow>)
    ensures forall k :: 0 <= k < |rows| && (forall j :: 0 <= j < k ==> rows[j].workflowId != rows[k].workflowId) ==>
      rows[k].workflowId in StatusMapOf(rows) && StatusMapOf(rows)[rows[k].workflowId] == rows[k].status
    decreases |rows|
  {
    if |rows| > 0 {
      var init := rows[..|rows| - 1];
      StatusMapFirstRow(init);
      StatusMapKeys(init);
      var m := StatusMapOf(rows);
      forall k | 0 <= k < |rows| && (forall j :: 0 <= j < k ==> rows[j].workflowId != rows[k].workflowId)
        ensures rows[k].workflowId in m && m[rows[k].workflowId] == rows[k].status
      {
        if k < |init| {
          assert init[k] == rows[k];
          assert forall j :: 0 <= j < k ==> init[j].workflowId != init[k].workflowId;
        } else {
          assert forall j :: 0 <= j < |init| ==> init[j].workflowId != rows[k].workflowId;
          assert rows[k].workflowId !in StatusMapOf(init);
        }
      }
    }
  }

  /** `getLatestRunStatus`: the newest 64 runs, most recent first, into a map that is never overwritten. */
  method GetLatestRunStatus(runsNewestFirst: seq<RunRow>) returns (statusMap: map<string, string>)
    ensures statusMap == StatusMapOf(Prefix(runsNewestFirst, LatestRunRows))
  {
    var rows := Prefix(runsNewestFirst, LatestRunRows);
    statusMap := map[];
    var i := 0;
    while i < |rows|
      invariant 0 <= i <= |rows|
      invariant statusMap == StatusMapOf(rows[..i])
    {
      var row := rows[i];
      assert rows[..i + 1][..i] == rows[..i];
      if row.workflowId !in statusMap {
        statusMap := statusMap[row.workflowId := row.status];
      }
      i := i + 1;
    }
    assert rows[..i] == rows;
  }

  // ---------------------------------------------------------------------
  // listWorkflows
  // ---------------------------------------------------------------------

  datatype StatsView = StatsView(successCount: nat, failureCount: nat, averageDurationMs: int, lastDurationMs: Option<int>)

  datatype WorkflowView = WorkflowView(
    id: string,
    name: string,
    description: string,
    status: string,
    schedule: ScheduleView,
    stats: StatsView)

  /** One preset's entry, using its schedule row when there is one. */
  function PresetView(p: Preset, schedule: Option<ScheduleRow>, statusMap: map<string, string>): WorkflowView {
    WorkflowView(
      p.id, p.name, p.description,
      if p.id in statusMap then statusMap[p.id] else StatusIdle,
      ScheduleView(
        if schedule.Some? then schedule.value.cron else p.defaultCron,
        if schedule.Some? then schedule.value.timezone else p.timezone,
        !(schedule.Some? && schedule.value.isEnabled == 0),
        if schedule.Some? then schedule.value.nextRunAt else None,
        if schedule.Some? then schedule.value.lastRunAt else None,
        if schedule.Some? then schedule.value.lastDurationMs else None),
      StatsView(
        if schedule.Some? then schedule.value.successCount.GetOr(0) else 0,
        if schedule.Some? then schedule.value.failureCount.GetOr(0) else 0,
        if schedule.Some? then schedule.value.avgDurationMs.GetOr(0) else 0,
        if schedule.Some? then schedule.value.lastDurationMs else None))
  }

  /** `listWorkflows`: default schedules are ensured, then one entry per preset in preset order. */
  function ListWorkflows(presets: seq<Preset>, schedules: Schedules, runsNewestFirst: seq<RunRow>): (r: seq<WorkflowView>)
    ensures |r| == |presets|
    ensures forall i :: 0 <= i < |presets| ==>
      r[i].id == presets[i].id && r[i].name == presets[i].name && r[i].description == presets[i].description
  {
    var ensured := EnsureDefaultSchedules(schedules, presets);
    var statusMap := StatusMapOf(Prefix(runsNewestFirst, LatestRunRows));
    seq(|presets|, i requires 0 <= i < |presets| =>
      PresetView(presets[i], if presets[i].id in ensured then Some(ensured[presets[i].id]) else None, statusMap))
  }

  /**
   * One entry per preset, in order; its schedule is the stored row (a new
   * preset's defaults otherwise); its status is that of the newest of the
   * recent runs of the workflow, else "idle".
   */
  lemma ListWorkflowsEntries(presets: seq<Preset>, schedules: Schedules, runsNewestFirst: seq<RunRow>)
    ensures |ListWorkflows(presets, schedules, runsNewestFirst)| == |presets|
    ensures forall i :: 0 <= i < |presets| ==> presets[i].id in EnsureDefaultSchedules(schedules, presets)
    ensures forall i :: 0 <= i < |presets| ==>
      var w := ListWorkflows(presets, schedules, runsNewestFirst)[i];
      var row := EnsureDefaultSchedules(schedules, presets)[presets[i].id];
      w.id == presets[i].id && w.name == presets[i].name
      && w.schedule.cron == row.cron && w.schedule.timezone == row.timezone
      && w.schedule.isEnabled == (row.isEnabled != 0)
      && w.stats.successCount == row.successCount.GetOr(0)
    ensures forall i :: 0 <= i < |presets| ==>
      var w := ListWorkflows(presets, schedules, runsNewestFirst)[i];
      var recent := Prefix(runsNewestFirst, LatestRunRows);
      (w.status == StatusIdle || exists k :: 0 <= k < |recent| && recent[k].workflowId == presets[i].id)
      && (forall k :: 0 <= k < |recent| && recent[k].workflowId == presets[i].id && (forall j :: 0 <= j < k ==> recent[j].workflowId != presets[i].id) ==>
            w.status == recent[k].status)
  {
    ListWorkflowsSchedules(presets, schedules, runsNewestFirst);
    ListWorkflowsStatus(presets, schedules, runsNewestFirst);
  }

  /** Each entry carries its preset's id and name and the schedule row ensured for it. */
  lemma ListWorkflowsSchedules(presets: seq<Preset>, schedules: Schedules, runsNewestFirst: seq<RunRow>)
    ensures |ListWorkflows(presets, schedules, runsNewestFirst)| == |presets|
    ensures forall i :: 0 <= i < |presets| ==> presets[i].id in EnsureDefaultSchedules(schedules, presets)
    ensures forall i :: 0 <= i < |presets| ==>
      var w := ListWorkflows(presets, schedules, runsNewestFirst)[i];
      var row := EnsureDefaultSchedules(schedules, presets)[presets[i].id];
      w.id == presets[i].id && w.name == presets[i].name
      && w.schedule.cron == row.cron && w.schedule.timezone == row.timezone
      && w.schedule.isEnabled == (row.isEnabled != 0)
      && w.stats.successCount == row.successCount.GetOr(0)
  {
    EnsureDefaultSchedulesCovers(schedules, presets);
  }

  /** Each entry's status is that of the newest recent run of its workflow, else "idle". */
  lemma ListWorkflowsStatus(presets: seq<Preset>, schedules: Schedules, runsNewestFirst: seq<RunRow>)
    ensures |ListWorkflows(presets, schedules, runsNewestFirst)| == |presets|
    ensures forall i :: 0 <= i < |presets| ==>
      var w := ListWorkflows(presets, schedules, runsNewestFirst)[i];
      var recent := Prefix(runsNewestFirst, LatestRunRows);
      (w.status == StatusIdle || exists k :: 0 <= k < |recent| && recent[k].workflowId == presets[i].id)
      && (forall k :: 0 <= k < |recent| && recent[k].workflowId == presets[i].id && (forall j :: 0 <= j < k ==> recent[j].workflowId != presets[i].id) ==>
            w.status == recent[k].status)
  {
    var recent := Prefix(runsNewestFirst, LatestRunRows);
    var statusMap := StatusMapOf(recent);
    StatusMapFirstRowWins(recent);
    forall i | 0 <= i < |presets|
      ensures ListWorkflows(presets, schedules, runsNewestFirst)[i].status
        == if presets[i].id in statusMap then statusMap[presets[i].id] else StatusIdle
    {
    }
  }

  // ---------------------------------------------------------------------
  // listRuns
  // ---------------------------------------------------------------------

  /** A row of `workflow_run_steps`. */
  datatype StepRow = StepRow(
    runId: string,
    stepId: string,
    name: string,
    status: string,
    durationMs: Option<int>,
    attempts: Option<int>,
    error: Option<string>,
    startedAt: Option<string>,
    finishedAt: Option<string>)

  datatype StepView = StepView(
    stepId: string,
    name: string,
    status: string,
    durationMs: int,
    attempts: int,
    error: Option<string>,
    startedAt: Option<string>,
    finishedAt: Option<string>)

  datatype RunView = RunView(
    id: string,
    workflowId: string,
    workflowName: string,
    startedAt: Option<string>,
    finishedAt: Option<string>,
    status: string,
    trigger: string,
    resultSummary: Option<string>,
    steps: seq<StepView>)

  /** A step as listed: a missing duration is 0 and missing attempts are 1. */
  function StepToView(s: StepRow): (v: StepView)
    ensures v.durationMs == s.durationMs.GetOr(0) && v.attempts == s.attempts.GetOr(1)
    ensures v.stepId == s.stepId && v.status == s.status && v.error == s.error
  {
    StepView(s.stepId, s.name, s.status, s.durationMs.GetOr(0), s.attempts.GetOr(1), s.error, s.startedAt, s.finishedAt)
  }

  /** The steps of run `runId`, in input order. */
  function StepsFor(steps: seq<StepRow>, runId: string): seq<StepView>
    decreases |steps|
  {
    if |steps| == 0 then []
    else StepsFor(steps[..|steps| - 1], runId) + (if steps[|steps| - 1].runId == runId then [StepToView(steps[|steps| - 1])] else [])
  }

  /** Grouping distributes over concatenation: later steps come after earlier ones. */
  lemma {:induction false} StepsForAppend(a: seq<StepRow>, b: seq<StepRow>, runId: string)
    ensures StepsFor(a + b, runId) == StepsFor(a, runId) + StepsFor(b, runId)
    decreases |b|
  {
    if |b| == 0 {
      assert a + b == a;
    } else {
      assert (a + b)[..|a + b| - 1] == a + b[..|b| - 1];
      StepsForAppend(a, b[..|b| - 1], runId);
    }
  }

  /** A single step lands in its own run's list and in no other. */
  lemma StepsForSingle(s: StepRow, runId: string)
    ensures StepsFor([s], runId) == if s.runId == runId then [StepToView(s)] else []
  {
    assert [s][..0] == [];
  }

  /** A run's list holds views of its own steps only, and every one of them. */
  lemma {:induction false} StepsForMembers(steps: seq<StepRow>, runId: string)
    ensures forall v :: v in StepsFor(steps, runId) <==> exists k :: 0 <= k < |steps| && steps[k].runId == runId && StepToView(steps[k]) == v
    decreases |steps|
  {
    if |steps| > 0 {
      var init := steps[..|steps| - 1];
      StepsForMembers(init, runId);
      forall v
        ensures v in StepsFor(steps, runId) <==> exists k :: 0 <= k < |steps| && steps[k].runId == runId && StepToView(steps[k]) == v
      {
        if exists k :: 0 <= k < |steps| && steps[k].runId == runId && StepToView(steps[k]) == v {
          var k :| 0 <= k < |steps| && steps[k].runId == runId && StepToView(steps[k]) == v;
          if k < |init| {
            assert init[k] == steps[k];
          }
        }
        if v in StepsFor(init, runId) {
          var k :| 0 <= k < |init| && init[k].runId == runId && StepToView(init[k]) == v;
          assert steps[k] == init[k];
        }
      }
    }
  }

  /** A run as listed: its columns as stored, and the steps given. */
  function RunToView(run: RunRow, steps: seq<StepView>): (v: RunView)
    ensures v.steps == steps
    ensures v.id == run.id && v.workflowId == run.workflowId && v.workflowName == run.workflowName
    ensures v.startedAt == run.startedAt && v.finishedAt == run.finishedAt
    ensures v.status == run.status && v.trigger == run.trigger && v.resultSummary == run.resultSummary
  {
    RunView(run.id, run.workflowId, run.workflowName, run.startedAt, run.finishedAt, run.status, run.trigger, run.resultSummary, steps)
  }

  /** What `listRuns` returns for runs (newest first) and their steps (by creation time). */
  function RunsView(runs: seq<RunRow>, steps: seq<StepRow>): (r: seq<RunView>)
    ensures |r| == |runs|
    ensures forall i :: 0 <= i < |runs| ==> r[i] == RunToView(runs[i], StepsFor(steps, runs[i].id))
  {
    seq(|runs|, i requires 0 <= i < |runs| => RunToView(runs[i], StepsFor(steps, runs[i].id)))
  }

  lemma RunsViewSnoc(runs: seq<RunRow>, steps: seq<StepRow>, j: nat)
    requires j < |runs|
    ensures RunsView(runs[..j + 1], steps) == RunsView(runs[..j], steps) + [RunToView(runs[j], StepsFor(steps, runs[j].id))]
  {
    var lhs := RunsView(runs[..j + 1], steps);
    var rhs := RunsView(runs[..j], steps) + [RunToView(runs[j], StepsFor(steps, runs[j].id))];
    assert |lhs| == |rhs|;
    forall i | 0 <= i < |lhs|
      ensures lhs[i] == rhs[i]
    {
      assert runs[..j + 1][i] == runs[i];
    }
  }

  /** The `stepMap` of `listRuns`: each run id with steps maps to the views of its steps, in order. */
  method GroupSteps(steps: seq<StepRow>) returns (stepMap: map<string, seq<StepView>>)
    ensures forall id :: id in stepMap ==> stepMap[id] == StepsFor(steps, id)
    ensures forall id :: id !in stepMap ==> StepsFor(steps, id) == []
  {
    stepMap := map[];
    var i := 0;
    while i < |steps|
      invariant 0 <= i <= |steps|
      invariant forall id :: id in stepMap ==> stepMap[id] == StepsFor(steps[..i], id)
      invariant forall id :: id !in stepMap ==> StepsFor(steps[..i], id) == []
    {
      var step := steps[i];
      assert steps[..i + 1][..i] == steps[..i];
      var list := if step.runId in stepMap then stepMap[step.runId] else [];
      stepMap := stepMap[step.runId := list + [StepToView(step)]];
      i := i + 1;
    }
    assert steps[..i] == steps;
  }

  /** `listRuns`: the `limit` newest runs, each with the steps grouped under its id (or []). */
  method ListRuns(runsNewestFirst: seq<RunRow>, steps: seq<StepRow>, limit: nat) returns (r: seq<RunView>)
    ensures r == RunsView(Prefix(runsNewestFirst, limit), steps)
  {
    var runs := Prefix(runsNewestFirst, limit);
    if |runs| == 0 {
      return [];
    }
    var stepMap := GroupSteps(steps);
    r := [];
    var j := 0;
    while j < |runs|
      invariant 0 <= j <= |runs|
      invariant r == RunsView(runs[..j], steps)
    {
      var run := runs[j];
      var runSteps := if run.id in stepMap then stepMap[run.id] else [];
      assert runSteps == StepsFor(steps, run.id);
      RunsViewSnoc(runs, steps, j);
      r := r + [RunToView(run, runSteps)];
      j := j + 1;
    }
    assert runs[..j] == runs;
  }
}
