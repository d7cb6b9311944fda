# ai-trend-publish backend components, modelled in Dafny

ai-trend-publish collects content from RSS feeds, RSSHub routes and scrapers. It ranks and summarises that content with language models, renders the result as a WeChat article and publishes it. An operator dashboard shows the workflows, their schedules, their runs and their live logs.

This project models the backend's self-contained components and proves properties of those models:

- **Retry helpers.** The Python `RetryUtil` has bounded attempts, an exponential delay capped after the first, an error that stops retrying, and a statistics record.
- **Configuration managers.**
  - The TypeScript `ConfigManager` keeps sources in priority order, retries each source, and returns the first non-null value.
  - The Python `ConfigManager` de-duplicates its sources, scans them round by round, and has a default value and a default source set-up.
- **RSS daily digest workflow.** Feed paths and overrides are resolved; HTML is stripped; item content is chosen by field precedence and truncated; items are de-duplicated by URL and ordered newest first; errors are wrapped.
- **Workflow dashboard and runner.**
  - The dashboard covers the schedule table, run counters, the running average and run records.
  - It also derives the latest status per workflow and groups steps under their runs.
  - The runner records a run's start and end around `execute`.
- **RSSHub client.**
  - The request builder collects query parameters.
  - A request derives a URL and a cache key from them.
  - Format selection is handled, as are the module-wide response cache and its prefix invalidation.
- **Provider factories.**
  - The LLM and embedding factories parse `"PROVIDER:model"` strings, derive cache keys and cache providers only after they initialise.
  - The OpenAI-compatible LLM and embedding providers parse a `"a|b|c"` model list and guard `setModel`; request defaults are modelled too.
- **Smaller components:**
  - the workflow log gateway's socket set and its filter;
  - the static front-end server's path normalisation, MIME type and cache header;
  - the data-source and workflow HTTP controllers' validation;
  - the WeChat renderer's list converter;
  - the Aliyun image generator's clamp and its polling loop;
  - the Jina reranker's request, error message and result mapping;
  - the prompt service's preset merging and seeding;
  - the vector service's batch ids, deletes, similarity post-processing and statistics.

Each component is one module, in one file named after its source file. Some modules are shared:

- `Optional` holds `Option` and `Result`;
- `JsText` holds the JavaScript string operations the code relies on;
- `JsonValue` holds parsed JSON and its truthiness;
- `HtmlText` holds global regular-expression replacement;
- `PriorityOrder` holds the stable sort by priority;
- `ProviderConfig` holds what the two factories share;
- `WorkflowTypes` holds the workflow enum and presets.

Where the source mutates an object, the model is a class whose methods modify its fields and are proved against specification functions. Where the source computes a value, the model is a function with lemmas. Where the source runs a loop, the model is a method with loop invariants.

I/O is a parameter of the operation that uses it. This covers:

- configuration lookups, HTTP exchanges and database rows;
- clocks, random numbers and file existence;
- the two similarity measures and the language model.

The workflow step engine is not part of this model: its module (`WorkflowEntrypoint`, `WorkflowStep`, the metrics collector and `WorkflowTerminateError`) is imported by the workflows but is not among the modelled files. Two behaviours of the modelled code that touch it:

- **Retry delays.** `RetryUtil` multiplies the delay by a backoff factor after each failed attempt and caps every delay after the first at `max_delay_ms` (src/utils/retry_util.py:58-61). The first delay is never capped (`RetryUtil.FirstDelayNotCapped`).
- **Terminated runs.** `runWorkflow` records every thrown error as "failed", a termination included (src/services/workflow-runner.ts:40-48, `WorkflowRunner.ErrorsRecordedAsFailed`). The RSS digest rethrows a termination unchanged and wraps every other error (src/works/rss-daily-digest.workflow.ts:291-302, `RssDailyDigest.WrapError`).

## Model

| member | source | states |
|---|---|---|
| `RetryUtil.RetryOperationSync` | src/utils/retry_util.py:31-76 | the calls made, the value returned or the exception raised, and the sleeps taken are those of the reference definitions `CallCount`, `SyncResult` and `SleepsFor`: one sleep after every failed attempt except the last |
| `RetryUtil.RetryOperationWithStatsSync` | src/utils/retry_util.py:80-127 | the stats record is `StatsResult`; `attempts` is the number of calls and `total_delay` the sum, in seconds, of the sleeps actually taken |
| `RetryUtil.StatsStoppingAt` | src/utils/retry_util.py:91-126 | when the loop stops at attempt k, k+1 calls were made and the stats record the value on success, or the last error, with the k delays slept so far |
| `RetryUtil.LastAttemptIsFirstStop` | src/utils/retry_util.py:42-67 | the loop stops at the first attempt that returns or raises a terminate error, or at the last allowed attempt; every earlier attempt failed with an ordinary exception |
| `RetryUtil.LastAttemptUnique` | src/utils/retry_util.py:42-67 | any attempt after only retryable failures that is itself a stop is the attempt the loop stops at |
| `RetryUtil.CallsBounded` | src/utils/retry_util.py:42 | the operation is called between 1 and `max_attempts` times, and never when `max_attempts` is 0 or less |
| `RetryUtil.NoAttemptsRaisesRuntimeError` | src/utils/retry_util.py:72-76 | with no attempts allowed the operation is never called and a `RuntimeError` with the fixed message is raised |
| `RetryUtil.FirstSuccessReturned` | src/utils/retry_util.py:43-44 | the first successful call's value is returned, nothing is called after it, and one sleep was taken per earlier failure |
| `RetryUtil.TerminateStopsAtOnce` | src/utils/retry_util.py:45-47 | a `WorkflowTerminateError` is re-raised on the attempt it occurs with no further call; the stats variant reports failure with that error instead of raising |
| `RetryUtil.AllFailuresExhaustAttempts` | src/utils/retry_util.py:56-67 | when every attempt fails, exactly `max_attempts` calls and `max_attempts - 1` sleeps happen and the last attempt's exception is raised |
| `RetryUtil.DelaysCapped` | src/utils/retry_util.py:58-61 | the first delay is `delay_ms` as given; every later delay is at most `max_delay_ms` |
| `RetryUtil.FirstDelayNotCapped` | src/utils/retry_util.py:39 | a `delay_ms` above `max_delay_ms` is still used once before the cap applies |
| `RetryUtil.DelaysWithinCap` | src/utils/retry_util.py:58-61 | with a backoff factor of at least 1 and a first delay within the cap, every delay lies in [0, `max_delay_ms`] |
| `RetryUtil.DelaysNonDecreasing` | src/utils/retry_util.py:58-61 | under the same conditions each delay is at least the previous one |
| `RetryUtil.NextDelayBounds` | src/utils/retry_util.py:58-61 | one backoff step from a delay within the cap neither shrinks it nor exceeds the cap |
| `RetryUtil.StatsAgreeWithSync` | src/utils/retry_util.py:87-126 | the stats variant makes the same calls as the plain one and reports success exactly when the plain one returns, with its value, or else the error it would raise |
| `RetryUtil.DelaysNonNegative` | src/utils/retry_util.py:58-61 | with a non-negative `delay_ms`, backoff factor and `max_delay_ms`, no delay is negative |
| `RetryUtil.SleepsNonNegative` | src/utils/retry_util.py:57 | under the same conditions every sleep taken is non-negative, so `time.sleep` never raises `ValueError` |
| `RetryUtil.SleepAt` | src/utils/retry_util.py:57-61 | the i-th sleep is the delay in force before the i-th retry, in seconds |
| `RetryUtil.NegativeDelayFirstSleep` | src/utils/retry_util.py:57 | a negative `delay_ms` makes the very first sleep negative, the point at which `time.sleep` raises |
| `PriorityOrder.InsertKeepsSorted` | src/utils/config/config-manager.ts:41-45 | inserting a source into a list sorted by priority keeps it sorted and adds exactly that source |
| `PriorityOrder.SortByCorrect` | src/utils/config/config-manager.ts:44 | the stable sort by priority yields an ascending list with the same elements |
| `PriorityOrder.SortSortedIsIdentity` | src/utils/config/config-manager.ts:44 | an already sorted list is left unchanged by the sort |
| `PriorityOrder.AppendThenSortIsInsert` | src/utils/config/config-manager.ts:42-44 | appending then sorting places the new source after every source of lower or equal priority |
| `ConfigManagerTs.MergeOptions` | src/utils/config/config-manager.ts:95 | the caller's retry options override the defaults field by field; an absent field keeps the default |
| `ConfigManagerTs.ConfigManager.constructor` | src/utils/config/config-manager.ts:22-26 | a new manager has no sources and the default retry options {3, 1000} |
| `ConfigManagerTs.ConfigManager.AddSource` | src/utils/config/config-manager.ts:41-45 | the new list is the old one plus the source, stably sorted by ascending priority; it is sorted and a permutation of old plus new |
| `ConfigManagerTs.ConfigManager.GetWithRetry` | src/utils/config/config-manager.ts:51-74 | the value and the number of `source.get` calls are `RetryValue`/`RetryCalls`; one wait of `delayMs` between attempts and none after the last |
| `ConfigManagerTs.ConfigManager.Get` | src/utils/config/config-manager.ts:91-107 | the result is `GetResult` with the merged options, and only the sources up to the first one with a value are consulted |
| `ConfigManagerTs.ConfigManager.GetSources` | src/utils/config/config-manager.ts:112-114 | returns the registered sources in priority order |
| `ConfigManagerTs.ConfigManager.ClearSources` | src/utils/config/config-manager.ts:119-121 | the source list becomes empty |
| `ConfigManagerTs.RetryCallsBounded` | src/utils/config/config-manager.ts:58 | `getWithRetry` calls the source at most `maxAttempts` times, and at least once when attempts remain |
| `ConfigManagerTs.ReturnedValueEndsRetry` | src/utils/config/config-manager.ts:60-61 | a value returned on attempt a, even `null`, ends the loop with that value after a calls |
| `ConfigManagerTs.AllThrowsGiveNull` | src/utils/config/config-manager.ts:62-73 | when every attempt throws, the result is `null` after exactly `maxAttempts` calls |
| `ConfigManagerTs.FirstFoundIsFirst` | src/utils/config/config-manager.ts:97-102 | the source found is the first whose retried lookup is not `null`; every earlier source yielded `null` |
| `ConfigManagerTs.GetReturnsFirstNonNull` | src/utils/config/config-manager.ts:97-106 | `get` succeeds iff some source yields a non-null value, returns the first such value, and otherwise throws `ConfigurationError` with the key and attempt count |
| `ConfigManagerTs.NoSourcesAlwaysThrows` | src/utils/config/config-manager.ts:104-106 | with no sources, `get` always throws `ConfigurationError` |
| `ConfigManagerPy.EnableDbCases` | src/utils/config/config_manager.py:133-138 | a DB source is enabled iff `ENABLE_DB` is a string in {true, 1, yes} in any ASCII case, or the bool `True`; ints, None and other values give False |
| `ConfigManagerPy.EnableDbExamples` | src/utils/config/config_manager.py:133-138 | "TRUE" and "Yes" enable the DB source; the int 1 and "on" do not |
| `ConfigManagerPy.ConfigManager.constructor` | src/utils/config/config_manager.py:24-31 | a new manager has no sources and is not initialised |
| `ConfigManagerPy.ConfigManager.AddSource` | src/utils/config/config_manager.py:33-44 | a non-source raises `TypeError` and changes nothing; an instance already present is not added again; a new one is inserted keeping the list sorted by priority and free of duplicates |
| `ConfigManagerPy.ConfigManager.GetSources` | src/utils/config/config_manager.py:47-49 | returns the registered sources |
| `ConfigManagerPy.ConfigManager.ClearSources` | src/utils/config/config_manager.py:51-55 | no sources remain and the initialised flag is reset |
| `ConfigManagerPy.ConfigManager.InitDefaultConfigSources` | src/utils/config/config_manager.py:106-154 | a no-op when already initialised with an environment source present; otherwise adds an environment source, then a DB source iff `ENABLE_DB` enables it, and sets the flag |
| `ConfigManagerPy.ConfigManager.Get` | src/utils/config/config_manager.py:57-104 | when uninitialised with no sources, the default set-up runs first: the sources become exactly a new environment source at the environment priority, plus a new DB source at the DB priority iff the `ENABLE_DB` lookup returned a value that enables it; otherwise the sources and the flag are unchanged; then the value and sleeps are `LookupValue`/`LookupSleeps` |
| `ConfigManagerPy.ConfigManager.Scan` | src/utils/config/config_manager.py:74-104 | the nested round and source loops return `LookupValue` after `LookupSleeps` sleeps |
| `ConfigManagerPy.InsertNoDuplicates` | src/utils/config/config_manager.py:39-41 | inserting an instance not yet present keeps the list free of duplicates |
| `ConfigManagerPy.FoundInRoundIsFirst` | src/utils/config/config_manager.py:76-87 | the value found in a round is a non-None answer of some source, and every earlier source answered None or raised |
| `ConfigManagerPy.NotFoundUsesDefault` | src/utils/config/config_manager.py:89-104 | a key never found gives exactly `retries - 1` sleeps and the default value (None when none is given) |
| `ConfigManagerPy.NoRoundFinds` | src/utils/config/config_manager.py:75-88 | when no round finds a value, the scan finds none |
| `ConfigManagerPy.FoundInRoundReturned` | src/utils/config/config_manager.py:79-81 | a value found in round r is returned after r sleeps and the default is not consulted |
| `ConfigManagerPy.EmptyGivesDefault` | src/utils/config/config_manager.py:99-104 | with no sources the default value is returned after `retries - 1` sleeps |
| `HtmlText.ReplaceMatchesUntouched` | src/works/rss-daily-digest.workflow.ts:72-78 | a global replacement leaves a text without the pattern's first character unchanged |
| `HtmlText.LiteralAbsent` | src/works/rss-daily-digest.workflow.ts:75-78 | replacing a literal that occurs nowhere in a text leaves the text unchanged |
| `HtmlText.CollapseSpaces` | src/works/rss-daily-digest.workflow.ts:79 | `replace(/\s+/g, " ")` leaves no white space but plain spaces and no two of them adjacent |
| `HtmlText.CollapseWithoutSpaces` | src/works/rss-daily-digest.workflow.ts:79 | collapsing white space does not change a text that has none |
| `HtmlText.SliceKeepsSpacing` | src/works/rss-daily-digest.workflow.ts:79 | trimming a collapsed text keeps it free of adjacent and non-plain white space |
| `HtmlText.CollapseThenTrimIsTidy` | src/works/rss-daily-digest.workflow.ts:79 | collapsing then trimming gives a text with no leading or trailing space and single plain spaces between words |
| `HtmlText.CollapseThenTrimWithoutSpaces` | src/works/rss-daily-digest.workflow.ts:79 | collapsing then trimming a text without white space returns it unchanged |
| `RssDailyDigest.StripHtmlIsTidy` | src/works/rss-daily-digest.workflow.ts:69-80 | whatever the HTML, `stripHtml` returns a trimmed text whose words are separated by single plain spaces |
| `RssDailyDigest.StripHtmlPlainText` | src/works/rss-daily-digest.workflow.ts:69-80 | text with no '<', no '&' and no white space comes out of `stripHtml` unchanged |
| `RssDailyDigest.AmpersandDecodedLast` | src/works/rss-daily-digest.workflow.ts:75-78 | `&amp;` is decoded after the other entities, so `&amp;` followed by plain text becomes '&' followed by that text, e.g. `&amp;lt;` gives `&lt;` |
| `RssDailyDigest.MarkupFree` | src/works/rss-daily-digest.workflow.ts:72-74 | removing style, script and tags leaves a text without '<' unchanged |
| `RssDailyDigest.Truncate` | src/works/rss-daily-digest.workflow.ts:184-193 | content of at most 1000 characters is kept as it is; longer content becomes its first 1000 characters followed by "..." |
| `RssDailyDigest.RawContentTidyUnlessText` | src/works/rss-daily-digest.workflow.ts:186-189 | when `content_text` is not truthy the content comes from `stripHtml` of `content_html`, `summary` or `description` (or is empty) and is tidy |
| `RssDailyDigest.PublishedDateIsFirstTruthy` | src/works/rss-daily-digest.workflow.ts:194 | the date is `date_published` when truthy, else `pubDate` when truthy, else `updated`, and is truthy iff one of the three is |
| `RssDailyDigest.Extract` | src/works/rss-daily-digest.workflow.ts:183-202 | an extracted article has a non-empty title and URL, its URL is "#" iff the item's URL is missing, empty or "#", and its content is at most 1003 characters |
| `RssDailyDigest.ExtractAll` | src/works/rss-daily-digest.workflow.ts:182-203 | one article per item, in item order, each the extraction of its item under the feed's title |
| `RssDailyDigest.FeedArticles` | src/works/rss-daily-digest.workflow.ts:176-209 | a failed request, a `null` body or a body without items contributes no article |
| `RssDailyDigest.CollectedAppend` | src/works/rss-daily-digest.workflow.ts:173-210 | collecting two lists of feed paths one after the other gives the concatenation of their collections |
| `RssDailyDigest.FailedFeedSkipped` | src/works/rss-daily-digest.workflow.ts:207-209 | a feed whose request throws is skipped and the feeds before and after it are still collected |
| `RssDailyDigest.FailedFeedContributesNothing` | src/works/rss-daily-digest.workflow.ts:207-209 | a single feed whose request throws gives no article |
| `RssDailyDigest.CollectItems` | src/works/rss-daily-digest.workflow.ts:170-210 | the loop over feed paths gathers exactly every feed's articles, in feed order, each fetched with the same time window |
| `RssDailyDigest.PushFeedItems` | src/works/rss-daily-digest.workflow.ts:180-205 | the inner loop appends the feed's articles, in order, to what was gathered before |
| `RssDailyDigest.DedupItems` | src/works/rss-daily-digest.workflow.ts:212-221 | the loop over `seenUrls` and `uniqueItems` computes the de-duplication function |
| `RssDailyDigest.DedupWithDistinct` | src/works/rss-daily-digest.workflow.ts:212-221 | articles kept after URLs already seen have usable URLs, distinct from each other and from the seen ones |
| `RssDailyDigest.DedupDistinctUrls` | src/works/rss-daily-digest.workflow.ts:212-221 | after de-duplication every URL is neither empty nor "#" and no URL occurs twice |
| `RssDailyDigest.DedupWithIsFirsts` | src/works/rss-daily-digest.workflow.ts:212-221 | de-duplicating the rest of the list, given the URLs seen before position k, keeps exactly the first occurrences from k on |
| `RssDailyDigest.DedupKeepsFirstOccurrences` | src/works/rss-daily-digest.workflow.ts:212-221 | de-duplication keeps exactly the first article of each usable URL, in input order |
| `RssDailyDigest.FirstsFromContains` | src/works/rss-daily-digest.workflow.ts:214-217 | every first article of a usable URL is kept |
| `RssDailyDigest.FirstsFromSubset` | src/works/rss-daily-digest.workflow.ts:214-217 | every kept article is an input article |
| `RssDailyDigest.DedupComplete` | src/works/rss-daily-digest.workflow.ts:212-221 | every usable URL of the input is still present after de-duplication, and every kept article comes from the input |
| `RssDailyDigest.FirstIndexOfUrl` | src/works/rss-daily-digest.workflow.ts:214-217 | every article with a usable URL has a first article with the same URL at or before it |
| `RssDailyDigest.SortNewestFirstCorrect` | src/works/rss-daily-digest.workflow.ts:223-227 | the sorted articles are a permutation of the input in non-increasing publish time, an article without a date counting as 0 |
| `RssDailyDigest.WrapError` | src/works/rss-daily-digest.workflow.ts:291-303 | a termination error is re-thrown unchanged; any other error becomes "Workflow failed critically: " followed by its message |
| `RssDailyDigest.ResolveFeedPaths` | src/works/rss-daily-digest.workflow.ts:140-159 | a non-empty override is used as it is; otherwise the paths are the feeds setting (default "[]") parsed as a JSON array of strings, and anything else terminates with "Failed to parse RSS_DAILY_DIGEST_FEEDS configuration." |
| `RssDailyDigest.MissingFeedsSettingIsEmpty` | src/works/rss-daily-digest.workflow.ts:140 | with no override and no feeds setting the path list is empty |
| `RssDailyDigest.ResolveHoursAgo` | src/works/rss-daily-digest.workflow.ts:141-142 | a non-zero override wins; otherwise the configured value, 24 when the lookup threw |
| `RssDailyDigest.ResolveLlmProvider` | src/works/rss-daily-digest.workflow.ts:134-138 | a truthy override wins; otherwise the configured provider, "DEFAULT_LLM_PROVIDER" when the lookup threw |
| `RssDailyDigest.NoArticlesMessageDate` | src/works/rss-daily-digest.workflow.ts:230-234 | the no-articles digest shows the date part before the first 'T' of the ISO time and the window in hours |
| `RssDailyDigest.PreparedDistinctAndOrdered` | src/works/rss-daily-digest.workflow.ts:170-228 | the articles handed to the language model have usable, pairwise distinct URLs and are in non-increasing publish time |
| `RssDailyDigest.Run` | src/works/rss-daily-digest.workflow.ts:121-304 | the run resolves configuration, returns early for no feeds or no articles, synthesizes the digest and returns it (nothing for the "file" output action), wrapping every error |
| `RssDailyDigest.NoFeedsSkipsSynthesis` | src/works/rss-daily-digest.workflow.ts:161-165 | with no feed paths the run returns the fixed no-feeds digest, whatever the synthesizer would do |
| `RssDailyDigest.BadFeedsConfigurationTerminates` | src/works/rss-daily-digest.workflow.ts:150-159 | without an override, a feeds setting that is not a JSON array of strings ends the run with the termination error |
| `RssDailyDigest.RunErrorsAreWrapped` | src/works/rss-daily-digest.workflow.ts:291-303 | every error the run throws is a termination or starts with "Workflow failed critically: " |
| `WorkflowDashboard.PresetById` | src/services/workflow-dashboard.service.ts:290 | the preset found for an id is a preset with that id, and none is found iff no preset has the id |
| `WorkflowTypes.PresetIdsDistinct` | src/constants/workflows.ts:11-37 | the presets carry the enum values as ids, in order, so no two share an id and the map built from them loses no entry |
| `WorkflowDashboard.FormatTimestampOfIso` | src/services/workflow-dashboard.service.ts:135-137 | an ISO instant "YYYY-MM-DDTHH:MM:SS.sssZ" is shown as "YYYY-MM-DD HH:MM:SS" |
| `WorkflowDashboard.SanitizePreview` | src/services/workflow-dashboard.service.ts:139-150 | the preview is null iff the input is empty or its plain text is empty |
| `WorkflowDashboard.Shorten` | src/services/workflow-dashboard.service.ts:149 | a text within the limit is kept; a longer one becomes its first `limit` characters followed by "..." |
| `WorkflowDashboard.SanitizePreviewShape` | src/services/workflow-dashboard.service.ts:141-149 | a non-null preview comes from a trimmed plain text with single plain spaces, and is cut (to exactly the limit plus "...") only when that text is over the limit |
| `WorkflowDashboard.EnsureDefaultSchedulesCovers` | src/services/workflow-dashboard.service.ts:152-169 | afterwards every preset has a schedule row, existing rows are untouched and only presets gained rows |
| `WorkflowDashboard.EnsureDefaultSchedules` | src/services/workflow-dashboard.service.ts:152-169 | every existing schedule row is kept unchanged |
| `WorkflowDashboard.UpdateWorkflowSchedule` | src/services/workflow-dashboard.service.ts:238-269 | after ensuring default rows, a workflow without a row fails with "Workflow <id> schedule not found", and only then |
| `WorkflowDashboard.UpdateWorkflowScheduleMerges` | src/services/workflow-dashboard.service.ts:242-268 | a preset's schedule never fails to update; patch fields override, absent fields keep the stored values, the statistics columns and every other workflow's row are unchanged |
| `WorkflowDashboard.RoundDivExact` | src/services/workflow-dashboard.service.ts:395 | `Math.round` of an exact quotient is that quotient |
| `WorkflowDashboard.RoundDivBetween` | src/services/workflow-dashboard.service.ts:395 | the rounded mean of n values between `lo` and `hi` lies between `lo` and `hi` |
| `WorkflowDashboard.NextAverageBetween` | src/services/workflow-dashboard.service.ts:391-395 | the new average lies between the previous average and the new duration, inclusive |
| `WorkflowDashboard.NextAverageSteady` | src/services/workflow-dashboard.service.ts:391-395 | a run as long as the current average leaves the average unchanged |
| `WorkflowDashboard.StatsAfterRun` | src/services/workflow-dashboard.service.ts:385-406 | the success counter grows by one iff the status is "success", the failure counter iff it is "failed"; the last duration is the run's; the schedule columns are unchanged |
| `WorkflowDashboard.UpdateScheduleStats` | src/services/workflow-dashboard.service.ts:376-407 | a workflow without a schedule row is skipped; otherwise only its row changes, to the row after the run |
| `WorkflowDashboard.CountersTrackStatus` | src/services/workflow-dashboard.service.ts:385-390 | the two counters together grow by one iff the status is "success" or "failed", and stay put for any other status |
| `WorkflowDashboard.RecordRunStart` | src/services/workflow-dashboard.service.ts:280-310 | the inserted row and the result share the id, name and workflow id; the status is "running"; the id is the given one or a fresh one; the name falls back to the preset's name, then to the id |
| `WorkflowDashboard.ResultSummary` | src/services/workflow-dashboard.service.ts:325-327 | the given summary wins; without one the error message is used |
| `WorkflowDashboard.RecordRunEnd` | src/services/workflow-dashboard.service.ts:312-347 | the run row gets the status, duration and summary; the statistics are updated iff a truthy workflow id and a duration are given |
| `WorkflowDashboard.RecordWorkflowResult` | src/services/workflow-dashboard.service.ts:349-374 | the stored preview is the sanitized preview with the default limit of 220; the name falls back to the preset's name, then to the id |
| `WorkflowDashboard.StatusMapFirstRowWins` | src/services/workflow-dashboard.service.ts:186-192 | the map holds exactly the workflows that have a row, each with the status of its first row; later rows never overwrite |
| `WorkflowDashboard.StatusMapKeys` | src/services/workflow-dashboard.service.ts:186-192 | a workflow is in the map exactly when one of the rows is of that workflow |
| `WorkflowDashboard.StatusMapFirstRow` | src/services/workflow-dashboard.service.ts:186-192 | the status of a workflow's first row is the one its key holds, whatever rows of it follow |
| `WorkflowDashboard.GetLatestRunStatus` | src/services/workflow-dashboard.service.ts:180-193 | the loop computes the first-row status map of the 64 most recent runs |
| `WorkflowDashboard.ListWorkflowsEntries` | src/services/workflow-dashboard.service.ts:195-236 | one entry per preset, in preset order, showing its schedule row; the status is that of the newest recent run of the workflow, else "idle" |
| `WorkflowDashboard.ListWorkflowsSchedules` | src/services/workflow-dashboard.service.ts:195-236 | each entry carries its preset's id and name, and the cron, timezone, enabled flag and success count of the schedule row ensured for it |
| `WorkflowDashboard.ListWorkflowsStatus` | src/services/workflow-dashboard.service.ts:195-236 | each entry's status is that of the newest of the recent runs of its workflow, and "idle" when it has none |
| `WorkflowDashboard.ListWorkflows` | src/services/workflow-dashboard.service.ts:195-236 | one entry per preset, in preset order, with the preset's id, name and description |
| `WorkflowDashboard.StepToView` | src/services/workflow-dashboard.service.ts:427-436 | a missing duration is shown as 0 and missing attempts as 1; the other fields are copied |
| `WorkflowDashboard.StepsForAppend` | src/services/workflow-dashboard.service.ts:425-440 | grouping steps distributes over concatenation, so later steps come after earlier ones |
| `WorkflowDashboard.StepsForSingle` | src/services/workflow-dashboard.service.ts:437-439 | a single step lands in its own run's list and in no other |
| `WorkflowDashboard.StepsForMembers` | src/services/workflow-dashboard.service.ts:425-440 | a run's list holds exactly the views of the steps of that run |
| `WorkflowDashboard.RunToView` | src/services/workflow-dashboard.service.ts:442-455 | a listed run keeps its id, workflow id and name, times, status, trigger and summary as stored, and holds exactly the steps given |
| `WorkflowDashboard.RunsView` | src/services/workflow-dashboard.service.ts:442-455 | one view per run, in run order, each carrying the steps of its own id |
| `WorkflowDashboard.GroupSteps` | src/services/workflow-dashboard.service.ts:425-440 | each run id in the step map maps to that run's steps in order, and a run id not in the map has no steps |
| `WorkflowDashboard.ListRuns` | src/services/workflow-dashboard.service.ts:409-456 | the `limit` newest runs, each with its grouped steps, or [] when it has none |
| `WorkflowRunner.RecordEnd` | src/services/workflow-runner.ts:33-47 | recording the end with the workflow id and the elapsed time updates that workflow's statistics by the run |
| `WorkflowRunner.CatchBlock` | src/services/workflow-runner.ts:40-50 | the run is recorded "failed" with the caught error and the elapsed time, then the error is re-thrown; when that record throws, its error escapes and the statistics are unchanged |
| `WorkflowRunner.RunWorkflow` | src/services/workflow-runner.ts:11-51 | the run's outcome, its effects in order, and the schedule table afterwards are those of the reference definitions |
| `WorkflowRunner.TryExecute` | src/services/workflow-runner.ts:26-50 | the `try`/`catch` gives the outcome, the end records in order and the schedule table afterwards of the reference definitions: "success" after `execute` completes, else "failed" with the error caught, which is re-thrown |
| `WorkflowRunner.StartThenExecute` | src/services/workflow-runner.ts:18-32 | the start record comes first, with the preset's name or the type, then `execute` with the run's id; every later effect ends that same run |
| `WorkflowRunner.ReturnsIffCompleted` | src/services/workflow-runner.ts:27-39 | the run returns iff `execute` and the "success" record both complete, and then returns its own id after exactly one "success" record |
| `WorkflowRunner.ErrorsRecordedAsFailed` | src/services/workflow-runner.ts:40-50 | when the run throws, its last effect records "failed" with the caught error, and the error thrown is the caught one unless the failure record itself threw |
| `WorkflowRunner.DurationIsElapsed` | src/services/workflow-runner.ts:37-45 | every recorded duration is the time from the start to that end |
| `WorkflowRunner.RunCountedOnce` | src/services/workflow-runner.ts:33-47 | when the failure record does not throw, the run counts once in its workflow's statistics: as a success when it returned and as a failure when it threw |
| `RssHubScraper.ParamIndex` | src/modules/scrapers/rsshub.scraper.ts:204 | the index found holds the first parameter with the name; none is found iff no parameter has it |
| `RssHubScraper.WithoutName` | src/modules/scrapers/rsshub.scraper.ts:204 | removing a name keeps exactly the other parameters, in order |
| `RssHubScraper.LookupDistinct` | src/modules/scrapers/rsshub.scraper.ts:518 | with distinct names, `get` returns the value of the parameter with that name, and nothing when there is none |
| `RssHubScraper.SetParamDistinct` | src/modules/scrapers/rsshub.scraper.ts:225 | with distinct names, `set` appends a new name, replaces an existing one in place, and keeps the names distinct |
| `RssHubScraper.SetParamInPlace` | src/modules/scrapers/rsshub.scraper.ts:225 | setting the only parameter of a name updates it at its position |
| `RssHubScraper.WithoutAbsentName` | src/modules/scrapers/rsshub.scraper.ts:225 | removing a name that does not occur changes nothing |
| `RssHubScraper.SetParamLookup` | src/modules/scrapers/rsshub.scraper.ts:225 | after `set` the name has the new value and every other name keeps its own |
| `RssHubScraper.SetParamOverwrites` | src/modules/scrapers/rsshub.scraper.ts:225 | setting a name twice leaves only the second value |
| `RssHubScraper.ParamIndexAt` | src/modules/scrapers/rsshub.scraper.ts:225 | the first position holding a name is the one found |
| `RssHubScraper.QueryEmptyIff` | src/modules/scrapers/rsshub.scraper.ts:478-481 | the query string is empty iff there are no parameters |
| `RssHubScraper.HandleError` | src/modules/scrapers/rsshub.scraper.ts:171-182 | the thrown error carries the endpoint and the HTTP status, and "Unknown error occurred" when the thrown value has no message |
| `RssHubScraper.RequestOutcome` | src/modules/scrapers/rsshub.scraper.ts:475-507 | a cache hit fetches nothing and never fails; otherwise the full URL is fetched, a failure names that URL, and the cache changes only by storing a successful reply under the key when caching is on |
| `RssHubScraper.RssHub.constructor` | src/modules/scrapers/rsshub.scraper.ts:145-158 | the default configuration: "https://rsshub.app", 10000 ms, caching on, five minutes, 100 entries, and an empty cache |
| `RssHubScraper.RssHub.Configure` | src/modules/scrapers/rsshub.scraper.ts:626-633 | given fields override the configuration; the cache is reset iff a non-zero size or age is given |
| `RssHubScraper.RssHub.ClearAll` | src/modules/scrapers/rsshub.scraper.ts:641-643 | the whole cache is emptied; baseURL, timeout, enableCache, cacheMaxAge and cacheSize keep their old values |
| `RssHubScraper.CacheHitSkipsFetch` | src/modules/scrapers/rsshub.scraper.ts:483-491 | with caching on, a truthy cached value under the key is returned without a request and nothing changes |
| `RssHubScraper.MissFetchesFullPath` | src/modules/scrapers/rsshub.scraper.ts:476-506 | otherwise the full URL is fetched; a success is returned and, with caching on, stored under the key; a failure is thrown naming that URL and stores nothing |
| `RssHubScraper.QueryMarkIffParams` | src/modules/scrapers/rsshub.scraper.ts:477-481 | the URL is base URL, path and suffix, followed by "?" and the query exactly when there are parameters |
| `RssHubScraper.WithoutPrefix` | src/modules/scrapers/rsshub.scraper.ts:579-589 | the keys left are exactly those not starting with the prefix, with their values |
| `RssHubScraper.ClearCacheReachesLongerPaths` | src/modules/scrapers/rsshub.scraper.ts:584 | the prefix test also matches the keys of a longer path that extends this one, so clearing "/a" clears the responses of "/ab" |
| `RssHubScraper.ClearCacheReachesOwnKeys` | src/modules/scrapers/rsshub.scraper.ts:584 | the builder's own keys are cleared, whatever the suffix and query |
| `RssHubScraper.BoolText` | src/modules/scrapers/rsshub.scraper.ts:368-394 | a boolean is written "true" iff it is true and "false" iff it is false |
| `RssHubScraper.GetKeepsChosenFormat` | src/modules/scrapers/rsshub.scraper.ts:516-523 | after `get()` a format is present: the one set before, else "rss" |
| `RssHubScraper.ForcedFormatWins` | src/modules/scrapers/rsshub.scraper.ts:532-571 | `rss2`, `atom`, `json` and `rss3` force their format, which `get()` then keeps |
| `RssHubScraper.RequestSetup.constructor` | src/modules/scrapers/rsshub.scraper.ts:210-214 | a new builder has its path, the key "rsshub:" followed by the path, and no parameters |
| `RssHubScraper.RequestSetup.Set` | src/modules/scrapers/rsshub.scraper.ts:204 | a parameter update through `URLSearchParams.set`, keeping names distinct |
| `RssHubScraper.RequestSetup.Filter` | src/modules/scrapers/rsshub.scraper.ts:224-227 | sets `filter` to the pattern and returns the same builder |
| `RssHubScraper.RequestSetup.FilterTitle` | src/modules/scrapers/rsshub.scraper.ts:237-240 | sets `filter_title` and returns the same builder |
| `RssHubScraper.RequestSetup.FilterDescription` | src/modules/scrapers/rsshub.scraper.ts:250-253 | sets `filter_description` and returns the same builder |
| `RssHubScraper.RequestSetup.FilterAuthor` | src/modules/scrapers/rsshub.scraper.ts:263-266 | sets `filter_author` and returns the same builder |
| `RssHubScraper.RequestSetup.FilterCategory` | src/modules/scrapers/rsshub.scraper.ts:276-279 | sets `filter_category` and returns the same builder |
| `RssHubScraper.RequestSetup.FilterTime` | src/modules/scrapers/rsshub.scraper.ts:289-292 | sets `filter_time` to the decimal seconds and returns the same builder |
| `RssHubScraper.RequestSetup.FilterOut` | src/modules/scrapers/rsshub.scraper.ts:302-305 | sets `filterout` and returns the same builder |
| `RssHubScraper.RequestSetup.FilterOutTitle` | src/modules/scrapers/rsshub.scraper.ts:315-318 | sets `filterout_title` and returns the same builder |
| `RssHubScraper.RequestSetup.FilterOutDescription` | src/modules/scrapers/rsshub.scraper.ts:328-331 | sets `filterout_description` and returns the same builder |
| `RssHubScraper.RequestSetup.FilterOutAuthor` | src/modules/scrapers/rsshub.scraper.ts:341-344 | sets `filterout_author` and returns the same builder |
| `RssHubScraper.RequestSetup.FilterOutCategory` | src/modules/scrapers/rsshub.scraper.ts:354-357 | sets `filterout_category` and returns the same builder |
| `RssHubScraper.RequestSetup.FilterCaseSensitive` | src/modules/scrapers/rsshub.scraper.ts:367-370 | sets `filter_case_sensitive` to "true" or "false" and returns the same builder |
| `RssHubScraper.RequestSetup.Limit` | src/modules/scrapers/rsshub.scraper.ts:380-383 | sets `limit` to the decimal count and returns the same builder |
| `RssHubScraper.RequestSetup.Sorted` | src/modules/scrapers/rsshub.scraper.ts:393-396 | sets `sorted` to "true" or "false" and returns the same builder |
| `RssHubScraper.RequestSetup.Fulltext` | src/modules/scrapers/rsshub.scraper.ts:405-408 | sets `mode` to "fulltext" and returns the same builder |
| `RssHubScraper.RequestSetup.Format` | src/modules/scrapers/rsshub.scraper.ts:436-439 | sets `format` to the chosen format and returns the same builder |
| `RssHubScraper.RequestSetup.OpenChinese` | src/modules/scrapers/rsshub.scraper.ts:449-452 | sets `opencc` to "s2t" or "t2s" and returns the same builder |
| `RssHubScraper.RequestSetup.Brief` | src/modules/scrapers/rsshub.scraper.ts:462-467 | sets `brief` only for a word count of at least 100, otherwise changes nothing |
| `RssHubScraper.RequestSetup.Request` | src/modules/scrapers/rsshub.scraper.ts:475-507 | the request's result, the URL fetched and the new cache are the reference outcome; the configuration is unchanged |
| `RssHubScraper.RequestSetup.Get` | src/modules/scrapers/rsshub.scraper.ts:516-523 | the format defaults to "rss", then the request is made without a suffix; the result, the URL fetched and the new cache are the reference outcome, and the whole configuration keeps its old values |
| `RssHubScraper.RequestSetup.Fetch` | src/modules/scrapers/rsshub.scraper.ts:532-571 | the format is forced, then `get()` makes the request: the result, the URL fetched and the new cache are the reference outcome, and the whole configuration keeps its old values |
| `RssHubScraper.RequestSetup.ClearCache` | src/modules/scrapers/rsshub.scraper.ts:579-589 | with caching on, every key starting with the builder's key is deleted; with caching off the cache is unchanged; the whole configuration keeps its old values |
| `ProviderConfig.ParseConfig` | src/providers/llm/llm-factory.ts:48-54 | the provider type holds no ':'; the model is absent iff the string has no ':' (the type is then the whole string); otherwise the type and model are the first two ':' pieces |
| `ProviderConfig.ParsedFromParts` | src/providers/embedding/embedding-factory.ts:42-47 | the parse facts hold of the pieces of a split on ':' |
| `ProviderConfig.CacheKey` | src/providers/llm/llm-factory.ts:62-66 | the cache key starts with the provider type and is exactly the type iff the model is not truthy |
| `ProviderConfig.ParseHead` | src/providers/embedding/embedding-factory.ts:42-47 | "a:b" followed by nothing or by further ':' pieces parses into a and b |
| `ProviderConfig.ParseTwo` | src/providers/llm/llm-factory.ts:48-54 | "a:b" with neither part holding a ':' parses into exactly those parts |
| `ProviderConfig.CacheKeyOfParsed` | src/providers/llm/llm-factory.ts:48-66 | a string with at most one ':' and a non-empty model part is its own cache key |
| `ProviderConfig.ParseOfCacheKey` | src/providers/embedding/embedding-factory.ts:42-55 | a configuration whose type has no ':' and whose model, if any, is non-empty and has no ':' survives the key and a re-parse |
| `ProviderConfig.EmptyModelKeysByType` | src/providers/llm/llm-factory.ts:51-65 | "TYPE:" parses with an empty model, which drops out of the key, so it names the same provider as "TYPE" |
| `ProviderConfig.ModelList` | src/providers/llm/openai-compatible-llm.ts:38-40 | one model per '\|' piece, each trimmed |
| `ProviderConfig.ModelListOfJoin` | src/providers/embedding/openai-compatible-embedding.ts:41-43 | trimmed names free of '\|' joined by '\|' are read back as the same list |
| `ProviderConfig.ModelListSingle` | src/providers/llm/openai-compatible-llm.ts:38-40 | a single trimmed name free of '\|' is a list of one model |
| `ProviderConfig.CachedIsReused` | src/providers/llm/llm-factory.ts:89-97 | a cached provider is never replaced: it is returned unless its refresh throws, and the map is unchanged |
| `ProviderConfig.StoredOnlyAfterInitialize` | src/providers/llm/llm-factory.ts:137-146 | every error leaves the map as it was, and the map changes only by storing a newly created provider under its key after its `initialize` succeeded |
| `ProviderConfig.UnsupportedStoresNothing` | src/providers/llm/llm-factory.ts:132-133 | an unknown provider type is thrown before initialisation and stores nothing |
| `ProviderConfig.LookupThenCached` | src/providers/llm/llm-factory.ts:86-139 | after a successful lookup the key is cached and the next lookup without refresh returns the same provider |
| `LlmFactory.CreateLlmProvider` | src/providers/llm/llm-factory.ts:102-134 | an unknown type is an error naming the type, and only then; "XUNFEI" gives the Xunfei provider whatever the model; the other types give an OpenAI-compatible provider with their key prefix and the model |
| `LlmFactory.DefaultConfig` | src/providers/llm/llm-factory.ts:172-177 | the configuration asked for is "OPENAI" iff the lookup threw, gave "" or gave "OPENAI"; otherwise it is the configured value |
| `LlmFactory.Factory.constructor` | src/providers/llm/llm-factory.ts:26-31 | a new factory has no providers |
| `LlmFactory.Factory.GetLlmProvider` | src/providers/llm/llm-factory.ts:74-147 | the result and the new provider map are the cache-then-initialise lookup of the parsed configuration |
| `LlmFactory.Factory.GetDefaultProvider` | src/providers/llm/llm-factory.ts:170-179 | the default provider is looked up with refresh for the configured string, "OPENAI" when the configuration lookup fails |
| `LlmFactory.ModelSelectsProvider` | src/providers/llm/llm-factory.ts:79-140 | asking for "TYPE:model" with a known OpenAI-compatible type creates a provider for that model and stores it under "TYPE:model" |
| `LlmFactory.UnknownTypeNeverCached` | src/providers/llm/llm-factory.ts:132-133 | an unknown provider type is thrown and never enters the map |
| `EmbeddingFactory.CreateProvider` | src/providers/embedding/embedding-factory.ts:102-113 | an unknown type is an error naming the type, and only then; a known type gives an OpenAI-compatible provider with the prefix "TYPE_" and the model |
| `EmbeddingFactory.Factory.constructor` | src/providers/embedding/embedding-factory.ts:21-26 | a new factory has no providers |
| `EmbeddingFactory.Factory.GetProvider` | src/providers/embedding/embedding-factory.ts:62-96 | the result and the new provider map are the cache-then-initialise lookup of the parsed configuration |
| `EmbeddingFactory.ExtraSegmentsShareProvider` | src/providers/embedding/embedding-factory.ts:42-76 | strings that differ only after the second ':' name the same cached provider: "DASHSCOPE:m:x" reuses the provider of "DASHSCOPE:m" |
| `EmbeddingFactory.UnknownTypeNeverCached` | src/providers/embedding/embedding-factory.ts:85-111 | an unknown provider type is thrown by `createProvider` and never enters the map |
| `CompatibleLlm.ChooseDefault` | src/providers/llm/openai-compatible-llm.ts:43 | a truthy specified model is the default; otherwise the first listed model |
| `CompatibleLlm.ChatRequestFor` | src/providers/llm/openai-compatible-llm.ts:97-115 | the request goes to "<base URL>/chat/completions" with "Bearer <token>" and the messages; the model is the option when truthy, else the default; temperature, top_p, max_tokens and stream take 0.7, 1, 2000 and false only when absent; response_format is passed on as given; 60 s timeout, 3 retries 1 s apart |
| `CompatibleLlm.Provider.constructor` | src/providers/llm/openai-compatible-llm.ts:16-22 | a new provider keeps its key prefix and specified model and has no settings yet |
| `CompatibleLlm.Provider.Refresh` | src/providers/llm/openai-compatible-llm.ts:24-59 | the settings afterwards and the message thrown are those of the reference definition of `refresh` on the three lookups |
| `CompatibleLlm.Provider.SetModel` | src/providers/llm/openai-compatible-llm.ts:65-73 | a listed model becomes the default; any other leaves the default unchanged; nothing else changes |
| `CompatibleLlm.Provider.GetModel` | src/providers/llm/openai-compatible-llm.ts:79-81 | returns the default model |
| `CompatibleLlm.Provider.GetAvailableModels` | src/providers/llm/openai-compatible-llm.ts:87-89 | returns the listed models |
| `CompatibleLlm.Provider.CreateChatCompletion` | src/providers/llm/openai-compatible-llm.ts:91-119 | sends the request built from the current settings; a client success is returned as it is and a client error is re-thrown wrapped |
| `CompatibleLlm.RefreshSucceedsIff` | src/providers/llm/openai-compatible-llm.ts:28-50 | `refresh` completes iff all three lookups succeed and neither the URL nor the key is empty; an empty URL throws "<prefix>BASE_URL is not set" first, then an empty key "<prefix>API_KEY is not set" |
| `CompatibleLlm.ModelsOnceRead` | src/providers/llm/openai-compatible-llm.ts:35-43 | once the model setting is read, the list is that setting (or "gpt-3.5-turbo" when empty) split on '\|' and trimmed, and the default is the specified model or a listed one, even when the URL or key check then throws |
| `CompatibleLlm.MissingSettingKeepsRest` | src/providers/llm/openai-compatible-llm.ts:29-37 | a lookup that throws ends `refresh` with its message and leaves every field not yet assigned as it was |
| `CompatibleLlm.EmptySettingFallsBack` | src/providers/llm/openai-compatible-llm.ts:35-43 | an empty model setting lists only "gpt-3.5-turbo", which becomes the default when no model is specified |
| `CompatibleLlm.ExplicitZerosKept` | src/providers/llm/openai-compatible-llm.ts:106-108 | explicit zero temperature, top_p and max_tokens are sent as given, not replaced by defaults |
| `CompatibleLlm.EmptyModelOptionUsesDefault` | src/providers/llm/openai-compatible-llm.ts:104 | an empty model option does not override the default model |
| `CompatibleEmbedding.RequestFor` | src/providers/embedding/openai-compatible-embedding.ts:90-100 | the request sends the text; the model, dimensions and encoding are the options when truthy, else the default model, 1024 and "float" |
| `CompatibleEmbedding.EmbeddingOutcome` | src/providers/embedding/openai-compatible-embedding.ts:94-113 | the call succeeds iff the API replied with a first embedding, returning it with the reply's model and the requested dimensions; every error starts with "Failed to create embedding: " and carries a thrown API message |
| `CompatibleEmbedding.Provider.constructor` | src/providers/embedding/openai-compatible-embedding.ts:19-25 | a new provider keeps its key prefix and specified model and has no settings yet |
| `CompatibleEmbedding.Provider.Refresh` | src/providers/embedding/openai-compatible-embedding.ts:27-53 | the settings afterwards and the message thrown are those of the reference definition of `refresh` on the three lookups |
| `CompatibleEmbedding.Provider.SetBaseURL` | src/providers/embedding/openai-compatible-embedding.ts:59-61 | only the base URL changes, to the given one |
| `CompatibleEmbedding.Provider.SetModel` | src/providers/embedding/openai-compatible-embedding.ts:67-73 | a listed model becomes the default; any other changes nothing |
| `CompatibleEmbedding.Provider.GetModel` | src/providers/embedding/openai-compatible-embedding.ts:78-80 | returns the default model |
| `CompatibleEmbedding.Provider.GetAvailableModels` | src/providers/embedding/openai-compatible-embedding.ts:85-87 | returns the listed models |
| `CompatibleEmbedding.Provider.CreateEmbedding` | src/providers/embedding/openai-compatible-embedding.ts:89-114 | the request sent is the defaulted request for the text, and the result is the outcome of the API's reply to it |
| `CompatibleEmbedding.DefaultIsSpecifiedOrListed` | src/providers/embedding/openai-compatible-embedding.ts:41-46 | once the model setting is read, the list is that setting split on '\|' and trimmed, and the default is the specified model or the first listed one |
| `CompatibleEmbedding.RefreshThrowsIff` | src/providers/embedding/openai-compatible-embedding.ts:31-46 | `refresh` throws iff one of the three lookups throws, with the first such message, keeping the fields not yet reached |
| `CompatibleEmbedding.DimensionsAreRequested` | src/providers/embedding/openai-compatible-embedding.ts:91-110 | the result reports the requested dimensions, not the length of the returned vector: a 3-element vector for a default request reports 1024 |
| `CompatibleEmbedding.MissingEmbeddingRejected` | src/providers/embedding/openai-compatible-embedding.ts:102-112 | a reply without data, with empty data, or whose first entry has no embedding fails with "Failed to create embedding: Invalid response from API" |
| `WorkflowLogGateway.Socket.constructor` | src/services/workflow-log.gateway.ts:18-20 | a socket carries its workflow filter |
| `WorkflowLogGateway.ReceivesWhenEitherUnset` | src/services/workflow-log.gateway.ts:46-52 | a socket without a filter receives every message, a message for no workflow reaches every socket, and otherwise a socket receives iff the two workflow ids are equal |
| `WorkflowLogGateway.FirstContained` | src/services/workflow-log.gateway.ts:77-79 | the preset found is the first, in map order, whose id occurs in the category; none is found iff no id occurs |
| `WorkflowLogGateway.MessageFor` | src/services/workflow-log.gateway.ts:61-92 | no message iff the lowercased category does not mention "workflow"; a message carries the fresh id, the lowercased level ("info" when absent), the record's message and its ISO timestamp |
| `WorkflowLogGateway.MessageNamesFirstPreset` | src/services/workflow-log.gateway.ts:77-82 | the message names the first preset whose id occurs in the category, with that preset's name; when none occurs it names no workflow and uses the category as its name |
| `WorkflowLogGateway.ContainsLowercase` | src/services/workflow-log.gateway.ts:71 | lowercasing the category keeps an occurrence of a lowercase text |
| `WorkflowLogGateway.WorkflowIdCategoryPublished` | src/services/workflow-log.gateway.ts:71-81 | a record whose category contains a preset id that itself contains "workflow" is always published, naming a workflow |
| `WorkflowLogGateway.ReachedStep` | src/services/workflow-log.gateway.ts:45-58 | visiting one more socket adds it to the reached or the dropped set exactly as its filter and its send decide |
| `WorkflowLogGateway.PublishPartitions` | src/services/workflow-log.gateway.ts:45-58 | the sockets reached and the sockets dropped are disjoint and together are those the filter lets through |
| `WorkflowLogGateway.Gateway.constructor` | src/services/workflow-log.gateway.ts:24 | a new gateway has no sockets |
| `WorkflowLogGateway.Gateway.AddSocket` | src/services/workflow-log.gateway.ts:35-37 | the socket set gains the socket |
| `WorkflowLogGateway.Gateway.RemoveSocket` | src/services/workflow-log.gateway.ts:39-41 | the socket set loses the socket, and is unchanged when it was absent |
| `WorkflowLogGateway.Gateway.Publish` | src/services/workflow-log.gateway.ts:43-59 | the payload reaches exactly the sockets the filter lets through whose send does not throw, and exactly those whose send throws are removed |
| `WorkflowLogGateway.Gateway.EmitLogRecord` | src/services/workflow-log.gateway.ts:61-92 | publishes the derived message, or nothing (no socket reached, no socket removed) for a record outside the workflow log |
| `FrontendStatic.IsFrontendRoute` | src/utils/frontend-static.ts:86-89 | a path is a front-end route iff it is empty or its first four characters are not "api/" and its first three are not "ws/" |
| `FrontendStatic.ServerRoutesNotFrontend` | src/utils/frontend-static.ts:86-89 | no path under "api/" or "ws/" is a front-end route |
| `FrontendStatic.BareServerNamesAreFrontend` | src/utils/frontend-static.ts:86-89 | only "api/" and "ws/" with their slash are the server's: "api", "ws" and "apiary" are front-end routes |
| `FrontendStatic.StripLeadingSlashes` | src/utils/frontend-static.ts:32 | the longest run of leading '/' is removed, and what remains does not start with '/' |
| `FrontendStatic.StripIdempotent` | src/utils/frontend-static.ts:32 | stripping leading slashes twice is stripping them once |
| `FrontendStatic.SafePath` | src/utils/frontend-static.ts:32-37 | the path is refused iff the path without its leading slashes contains ".."; a path looked up is not empty and has no leading '/' and no "..", is "index.html" for a path of slashes only, and otherwise the path without its leading slashes |
| `FrontendStatic.StripTrailingSlashes` | src/utils/frontend-static.ts:42 | trailing slashes are removed from the end, as `path.extname` ignores them |
| `FrontendStatic.AfterLastSlash` | src/utils/frontend-static.ts:42 | the base name is the part after the last '/', holding no '/' |
| `FrontendStatic.LastDot` | src/utils/frontend-static.ts:42 | the index found holds the last '.', and none is found iff there is no '.' |
| `FrontendStatic.ExtOfBase` | src/utils/frontend-static.ts:42 | the extension is "" or a suffix of the base name that starts with its only '.' |
| `FrontendStatic.ExtName` | src/utils/frontend-static.ts:42 | the extension is "" or starts with '.' and holds no further '.' or '/' |
| `FrontendStatic.ExtensionAt` | src/utils/frontend-static.ts:42 | a path whose last '.' follows a character other than '/' and is followed by characters other than '.' and '/' has the extension starting at that '.' |
| `FrontendStatic.IndexHasHtmlExtension` | src/utils/frontend-static.ts:42-56 | "index.html" has the extension ".html" |
| `FrontendStatic.MimeType` | src/utils/frontend-static.ts:5-43 | the type is "application/octet-stream" iff the extension is not one of the nine in the table |
| `FrontendStatic.CacheControl` | src/utils/frontend-static.ts:44-46 | a found file is "no-cache" iff its extension is ".html", and otherwise cached for a year as immutable |
| `FrontendStatic.DotDotNeverServed` | src/utils/frontend-static.ts:35-37 | a path containing ".." is never served, whatever exists on disk |
| `FrontendStatic.ServeFrontendAsset` | src/utils/frontend-static.ts:28-67 | there is no answer iff the path is refused, or neither the file nor "index.html" exists; an answer names an existing file, which is the requested one or "index.html", and its two headers are those of that file's extension |
| `FrontendStatic.ServedFileIsSafe` | src/utils/frontend-static.ts:28-67 | every file served exists, is not empty, has no ".." and no leading '/' |
| `FrontendStatic.NoCacheIffHtml` | src/utils/frontend-static.ts:44-63 | an answer is uncached iff it is the fallback or an ".html" file |
| `FrontendStatic.MissingFileFallsBack` | src/utils/frontend-static.ts:56-64 | a missing file is answered by "index.html" as uncached HTML when that exists |
| `FrontendStatic.RootServesIndex` | src/utils/frontend-static.ts:32-53 | the root "/" serves "index.html" as uncached HTML when it exists |
| `FrontendStatic.ScriptServedImmutable` | src/utils/frontend-static.ts:41-53 | an existing "name.js" is served as JavaScript with the long-lived cache header |
| `FrontendStatic.ScriptExtension` | src/utils/frontend-static.ts:42 | a name ending in ".js" after a character other than '/' has the extension ".js" |
| `FrontendStatic.UnknownExtensionIsOctetStream` | src/utils/frontend-static.ts:41-53 | an existing file whose extension is not in the table is served as "application/octet-stream" with the long-lived cache header |
| `DataSourceController.NumberOf` | src/controllers/data-source.controller.ts:45-65 | `Number` of a missing id is NaN, of "" is 0, and of a string of decimal digits is its value |
| `DataSourceController.NormalizePlatform` | src/controllers/data-source.controller.ts:10-17 | a platform is accepted iff the value is truthy and its lower-case form is "firecrawl" or "twitter", and then that lower-case form is returned |
| `DataSourceController.NormalizeIdempotent` | src/controllers/data-source.controller.ts:10-17 | normalising an accepted platform again gives it back |
| `DataSourceController.PlatformCaseInsensitive` | src/controllers/data-source.controller.ts:12-13 | every string normalises as its lower-cased form does, and any spelling of a supported platform gives that platform in lower case |
| `DataSourceController.PlatformExamples` | src/controllers/data-source.controller.ts:12-13 | "Twitter" is the platform "twitter"; "rss" is refused |
| `DataSourceController.CreateController` | src/controllers/data-source.controller.ts:24-39 | a create is refused with 400 and code -32602 iff the platform is not supported or the identifier is not truthy; otherwise the service creates the normalised platform with the identifier |
| `DataSourceController.UpdateController` | src/controllers/data-source.controller.ts:41-62 | an id that is 0 or NaN is refused with "Invalid id"; a truthy unsupported platform with "Invalid platform"; otherwise the service updates the id with the normalised platform when given and the identifier when it is a string, and only then |
| `DataSourceController.DeleteController` | src/controllers/data-source.controller.ts:64-71 | a delete is refused with "Invalid id" iff the id is 0 or NaN; otherwise the service removes that id |
| `DataSourceController.ZeroOrMissingIdRejected` | src/controllers/data-source.controller.ts:45-68 | a missing, empty or zero id is refused by update and delete alike, before any service call |
| `DataSourceController.DigitIdAccepted` | src/controllers/data-source.controller.ts:65-69 | a decimal id other than zero is accepted and passed on as that number |
| `DataSourceController.EmptyIdentifierStillPatched` | src/controllers/data-source.controller.ts:50-60 | an update with no or an empty platform never fails on the platform: an empty identifier is still written and an absent one is left out of the patch |
| `DataSourceController.CreateAndUpdateAgreeOnPlatform` | src/controllers/data-source.controller.ts:27-55 | a platform that create accepts is accepted by update too, and normalised the same way |
| `WorkflowsController.TriggerController` | src/controllers/workflows.controller.ts:38-66 | an unknown workflow is refused with 400 and -32602; otherwise the result of the trigger is returned as JSON, and a throw becomes 500 with -32603 and the error's message, or a fixed message when the value thrown is not an Error |
| `WorkflowsController.PatchOf` | src/controllers/workflows.controller.ts:83-88 | the patch holds cron and timezone exactly when they are truthy, and isEnabled exactly when it is a boolean, each with the value of the payload |
| `WorkflowsController.UpdateScheduleController` | src/controllers/workflows.controller.ts:72-95 | an unknown workflow is refused with 400 and -32602; otherwise the service's schedule for the filtered patch is returned |
| `WorkflowsController.WorkflowTypeIff` | src/controllers/workflows.controller.ts:14-21 | the accepted workflow ids are exactly the three values of the workflow type enumeration |
| `WorkflowsController.UnknownWorkflowNotTriggered` | src/controllers/workflows.controller.ts:43-48 | for an unknown workflow the reply does not depend on the trigger, so it is never run, and it is a rejection |
| `WorkflowsController.UnknownWorkflowNotUpdated` | src/controllers/workflows.controller.ts:76-81 | for an unknown workflow the reply does not depend on the schedule service |
| `WorkflowsController.FalsyFieldsDropped` | src/controllers/workflows.controller.ts:83-88 | any payload whose cron and timezone are absent or falsy and whose isEnabled is absent or not a boolean gives the empty patch |
| `WorkflowsController.FalsyFieldsExample` | src/controllers/workflows.controller.ts:84-86 | an empty cron, a null timezone and a string isEnabled give an empty patch |
| `WorkflowsController.PatchIdempotent` | src/controllers/workflows.controller.ts:83-88 | filtering an already filtered patch gives it back unchanged |
| `WorkflowsController.DisablingIsKept` | src/controllers/workflows.controller.ts:86-88 | isEnabled false is kept in the patch, although it is falsy |
| `ListConverter.SkipSlashes` | src/modules/md-converter/renderer/WXRenderer/converters/list.ts:14 | the index after the run of slashes that starts at j, every character passed over being a slash |
| `ListConverter.CloseFrom` | src/modules/md-converter/renderer/WXRenderer/converters/list.ts:14 | the lazy `.*?>` part of the pattern: the first '>' from k on, found only when no line terminator comes before it |
| `ListConverter.TagEnd` | src/modules/md-converter/renderer/WXRenderer/converters/list.ts:14 | a match of the tag pattern at the start begins with '<' and ends at a '>' at least two characters on |
| `ListConverter.StripTags` | src/modules/md-converter/renderer/WXRenderer/converters/list.ts:14 | the global replacement never lengthens the text |
| `ListConverter.Segments` | src/modules/md-converter/renderer/WXRenderer/converters/list.ts:14-15 | there is always at least one segment, and none contains the marker |
| `ListConverter.NumberedItems` | src/modules/md-converter/renderer/WXRenderer/converters/list.ts:21-23 | item j of an ordered list after the first is the number j, ". " and segment j |
| `ListConverter.RenderList` | src/modules/md-converter/renderer/WXRenderer/converters/list.ts:8-25 | the list html is the ul element of the bullet-joined segments, or the ol element of the numbered segments |
| `ListConverter.OrderedIsNumberedItems` | src/modules/md-converter/renderer/WXRenderer/converters/list.ts:20-23 | after the loop has reached k, the body is the first segment followed by the first k - 1 numbered items |
| `ListConverter.OrderedBodyIsNumberedItems` | src/modules/md-converter/renderer/WXRenderer/converters/list.ts:20-24 | the ordered body numbers every segment after the first from 1, whatever the start argument says |
| `ListConverter.NoMarkerAcross` | src/modules/md-converter/renderer/WXRenderer/converters/list.ts:17 | a marker cannot straddle a separator that shares no character with it |
| `ListConverter.NoMarkerInJoin` | src/modules/md-converter/renderer/WXRenderer/converters/list.ts:17 | joining marker-free segments with such a separator leaves no marker |
| `ListConverter.NoMarkerInOrdered` | src/modules/md-converter/renderer/WXRenderer/converters/list.ts:20-23 | the numbering loop introduces no marker at any step |
| `ListConverter.MarkersAllReplaced` | src/modules/md-converter/renderer/WXRenderer/converters/list.ts:15-23 | no marker is left in the body of either kind of list |
| `ListConverter.StripPlainPrefix` | src/modules/md-converter/renderer/WXRenderer/converters/list.ts:14 | text without '<' passes through the tag removal unchanged in front of whatever follows |
| `ListConverter.NoTagsUnchanged` | src/modules/md-converter/renderer/WXRenderer/converters/list.ts:14 | text without '<' is left as it is |
| `ListConverter.SkipSlashesPrefix` | src/modules/md-converter/renderer/WXRenderer/converters/list.ts:14 | the slash run of a tag does not depend on what follows the tag |
| `ListConverter.CloseAt` | src/modules/md-converter/renderer/WXRenderer/converters/list.ts:14 | the closing '>' is found at the first '>' when no line terminator precedes it |
| `ListConverter.StripTagPrefix` | src/modules/md-converter/renderer/WXRenderer/converters/list.ts:14 | a whole tag at the front is removed, whatever follows it |
| `ListConverter.ParagraphUnwrapped` | src/modules/md-converter/renderer/WXRenderer/converters/list.ts:14 | a paragraph-wrapped item with any attributes loses both its opening and closing tag |
| `ListConverter.PreTagsRemovedToo` | src/modules/md-converter/renderer/WXRenderer/converters/list.ts:14 | any tag whose name begins with p, such as pre, is removed as well |
| `ListConverter.MarkerKept` | src/modules/md-converter/renderer/WXRenderer/converters/list.ts:14 | the marker is not a tag and survives the tag removal |
| `ListConverter.SplitAtMarker` | src/modules/md-converter/renderer/WXRenderer/converters/list.ts:15 | two items without '<' split back apart at their one marker |
| `ListConverter.TwoItems` | src/modules/md-converter/renderer/WXRenderer/converters/list.ts:14-24 | two items give a ul joined by the bullet, or an ol whose second item is numbered "1. " |
| `ListConverter.TwoSegments` | src/modules/md-converter/renderer/WXRenderer/converters/list.ts:14-15 | two items without a '<', joined by the `<%s/>` marker, split back into exactly those two items |
| `AliyunImageGenerator.ClampValue` | src/providers/image-gen/aliyun/base.aliyun.image-generator.ts:155-163 | an undefined value gives the default; otherwise the result lies in a non-empty range, is the value when inside it, min below it and max above it |
| `AliyunImageGenerator.GenerateSeed` | src/providers/image-gen/aliyun/base.aliyun.image-generator.ts:50-52 | the seed is an integer from 1 to 4294967290 |
| `AliyunImageGenerator.Generator.constructor` | src/providers/image-gen/aliyun/base.aliyun.image-generator.ts:31 | a new generator holds no API key |
| `AliyunImageGenerator.Generator.Refresh` | src/providers/image-gen/aliyun/base.aliyun.image-generator.ts:39-45 | a failed lookup is thrown and an empty key throws "DASHSCOPE_API_KEY environment variable is not set", both leaving the key as it was; a non-empty key is stored |
| `AliyunImageGenerator.WaitForCompletion` | src/providers/image-gen/aliyun/base.aliyun.image-generator.ts:128-151 | the loop resolves or throws exactly as the reference definition `WaitFrom` says, after as many checks and with a sleep of interval after every non-terminal one |
| `AliyunImageGenerator.WaitShape` | src/providers/image-gen/aliyun/base.aliyun.image-generator.ts:135-150 | at most maxAttempts checks are made; a timeout follows only non-terminal statuses, and any other ending is decided by the last check, of which SUCCEEDED returns getResult of its output, FAILED throws and a throw is passed on |
| `AliyunImageGenerator.WaitSkipsPending` | src/providers/image-gen/aliyun/base.aliyun.image-generator.ts:135-148 | non-terminal statuses are passed over |
| `AliyunImageGenerator.FirstSuccessReturned` | src/providers/image-gen/aliyun/base.aliyun.image-generator.ts:138-140 | the first SUCCEEDED within the allowed checks is returned through getResult, and no further check is made |
| `AliyunImageGenerator.FailureThrowsAtOnce` | src/providers/image-gen/aliyun/base.aliyun.image-generator.ts:142-144 | the first FAILED throws "image generation task failed" at once |
| `AliyunImageGenerator.AllPendingTimesOut` | src/providers/image-gen/aliyun/base.aliyun.image-generator.ts:135-150 | maxAttempts non-terminal statuses end in the timeout after maxAttempts sleeps |
| `AliyunImageGenerator.DefaultTimeout` | src/providers/image-gen/aliyun/base.aliyun.image-generator.ts:130-150 | with the defaults, thirty pending statuses time out after sixty seconds of sleeping |
| `AliyunImageGenerator.ClampEmptyRange` | src/providers/image-gen/aliyun/base.aliyun.image-generator.ts:162 | with max below min the result is max, whatever the value |
| `AliyunImageGenerator.ClampIdempotent` | src/providers/image-gen/aliyun/base.aliyun.image-generator.ts:162 | clamping an already clamped value changes nothing |
| `JinaReranker.Construct` | src/providers/reranker/jina/jina.reranker.ts:50-61 | construction fails with the key-missing message iff JINA_API_KEY is not truthy; otherwise the key is kept and the default model is the configured one when truthy, else jina-reranker-v2-base-multilingual |
| `JinaReranker.RequestFor` | src/providers/reranker/jina/jina.reranker.ts:78-91 | the request carries the option's model when truthy, else the default; return_documents only when the option is true; the query, the documents and top_n as given |
| `JinaReranker.DocumentText` | src/providers/reranker/jina/jina.reranker.ts:152-162 | a document's text is the API's text when asked for and non-empty, else the input document at the reported index, else empty |
| `JinaReranker.MapResults` | src/providers/reranker/jina/jina.reranker.ts:150-169 | one reranked document per result, in the API's order, with its index, its score and its text |
| `JinaReranker.ErrorMessageAsWritten` | src/providers/reranker/jina/jina.reranker.ts:106-123 | the message is in the API-error form iff the body parses to a value with a truthy string `detail`, a truthy `detail.msg` or a truthy `message`; otherwise it is the status line with the raw body appended |
| `JinaReranker.ErrorMessage` | src/providers/reranker/jina/jina.reranker.ts:106-123 | the message of a failed request as intended: a validation error's array detail gives the msg of its first entry; any other body gives the message as written |
| `JinaReranker.Rerank` | src/providers/reranker/jina/jina.reranker.ts:73-180 | as written: every error is rethrown under "Failed to rerank documents using Jina: "; documents come back iff the reply passed the schema with a `results` array; a failed request's message is `ErrorMessageAsWritten` |
| `JinaReranker.Outcome` | src/providers/reranker/jina/jina.reranker.ts:95-180 | every error carries the common prefix; documents come back iff the reply has a `results` array, mapped from it; a reply without `results` is an invalid response structure |
| `JinaReranker.RerankIntended` | src/providers/reranker/jina/tests/jina.reranker.test.ts:152-168 | as `Rerank`, except that a failed request's message is the intended `ErrorMessage` |
| `JinaReranker.MissingResultsInvalid` | src/providers/reranker/jina/jina.reranker.ts:127-138 | a reply without `results` fails the schema and is rethrown as an invalid response structure, never an empty list |
| `JinaReranker.EmptyResultsEmpty` | src/providers/reranker/jina/jina.reranker.ts:150-171 | an empty `results` array gives no documents and no error |
| `JinaReranker.ValidationErrorAsRethrown` | src/providers/reranker/jina/jina.reranker.ts:106-178 | the 422 validation error of the test, through `rerank` as written, gives the status line and the raw body under the common prefix |
| `JinaReranker.ValidationErrorAsIntended` | src/providers/reranker/jina/tests/jina.reranker.test.ts:152-168 | the same error through the intended version gives "Jina Reranker API Error: field required (Status: 422)" under the common prefix |
| `JinaReranker.InputTextsWithoutReturnDocuments` | src/providers/reranker/jina/jina.reranker.ts:83-158 | without return_documents the texts are the input documents at the reported indices |
| `JinaReranker.OrderPreserved` | src/providers/reranker/jina/jina.reranker.ts:149-150 | results sorted by decreasing score stay sorted |
| `JinaReranker.EveryDocumentReported` | src/providers/reranker/jina/jina.reranker.ts:150-169 | every input document the API reports appears among the reranked documents, at the position the API gives it |
| `JinaReranker.StringDetailFirst` | src/providers/reranker/jina/jina.reranker.ts:112-113 | a non-empty string detail wins over message |
| `JinaReranker.ObjectDetailMsg` | src/providers/reranker/jina/jina.reranker.ts:114-115 | an object detail gives its msg |
| `JinaReranker.RawBodyAppended` | src/providers/reranker/jina/jina.reranker.ts:118-123 | a body that is not JSON, or has none of the fields, is appended to the status line |
| `JinaReranker.ArrayDetailNotUnwrapped` | src/providers/reranker/jina/jina.reranker.ts:112-120 | as written, the validation error of the test gives the status line and the raw body, without "field required" in the API error form |
| `JinaReranker.ArrayDetailUnwrapped` | src/providers/reranker/jina/tests/jina.reranker.test.ts:152-168 | with the intended message, the same error gives "Jina Reranker API Error: field required (Status: 422)" |
| `JinaReranker.UnparsedFailureMessage` | src/providers/reranker/jina/jina.reranker.ts:106-176 | a failing status whose body is not JSON is rethrown with its code and body under the common prefix |
| `PromptService.PresetFor` | src/constants/prompt-presets.ts:61-63 | the preset found for an id is a registered preset with that id, and none is found iff no preset has that id |
| `PromptService.BuildPromptDetail` | src/services/prompt.service.ts:31-45 | content is the row's, else the preset default, else empty, and size is its length; title is the row's, else the preset title, else the prompt id; description comes from the preset; updatedAt is the row's, else now |
| `PromptService.DefaultDetail` | src/services/prompt.service.ts:77-104 | a preset without a row shows its own title and default content, with its length as size |
| `PromptService.Get` | src/services/prompt.service.ts:88-105 | reading fails with "Prompt id not registered" iff the id has no preset; otherwise the detail has that id and the length of its content, and is the preset default when no row exists |
| `PromptService.Listing` | src/services/prompt.service.ts:72-85 | one entry per preset, in the order of the presets, each under its preset's id |
| `PromptService.PromptTable.constructor` | src/services/prompt.service.ts:22 | a new service starts over an empty prompts table |
| `PromptService.PromptTable.SeedDefaults` | src/services/prompt.service.ts:56-66 | the table becomes the seeded table: presets visited in order, a row inserted for each id without one |
| `PromptService.PromptTable.ListPrompts` | src/services/prompt.service.ts:68-86 | the table is seeded first and the listing of the seeded table is returned |
| `PromptService.PromptTable.GetPrompt` | src/services/prompt.service.ts:88-105 | the result is the reading of the current table, and the table is unchanged |
| `PromptService.PromptTable.UpdatePrompt` | src/services/prompt.service.ts:112-137 | an unregistered id throws and leaves the table alone; otherwise the row is upserted with the preset title and the new content, and its detail returned |
| `PromptService.SeededKeepsRows` | src/services/prompt.service.ts:58-59 | seeding leaves every existing row as it was |
| `PromptService.SeededKeys` | src/services/prompt.service.ts:56-66 | after seeding the ids are the old ids plus every preset id |
| `PromptService.SeededRowOfPreset` | src/services/prompt.service.ts:60-64 | a preset with no row gets a row holding its id, title and default content |
| `PromptService.SeededNoop` | src/services/prompt.service.ts:58-59 | when every preset has a row, seeding inserts nothing |
| `PromptService.SeedIdempotent` | src/services/prompt.service.ts:56-66 | seeding twice inserts nothing the second time |
| `PromptService.SeededKeyedById` | src/services/prompt.service.ts:60-64 | seeding keeps every row stored under its own id |
| `PromptService.FreshListingShowsDefaults` | src/services/prompt.service.ts:68-86 | on an empty table, the listing shows every preset with its default title, content and size |
| `PromptService.GetAfterUpdate` | src/services/prompt.service.ts:112-137 | after an update, reading the prompt gives the new content, its length and the preset's title |
| `PromptService.RegisteredIdsOnly` | src/constants/prompt-presets.ts:46-63 | with the registered presets, exactly "polish" and "ranker" can be read, whatever the table holds |
| `PromptService.ListingUsesStoredRows` | src/services/prompt.service.ts:73-76 | a listed preset with a row is built from that row, under the preset's metadata |
| `PromptService.BareRowDetail` | src/services/prompt.service.ts:35-43 | a row with neither content nor title and no preset is shown empty under its own id |
| `PromptService.EmptyContentKept` | src/services/prompt.service.ts:36-39 | an empty stored content or title is kept, since the fallback applies only when the field is absent |
| `VectorService.Filter` | src/services/vector-service.ts:190 | the kept elements are exactly those of the input that pass the test, never more often than in the input |
| `VectorService.FilterMultiset` | src/services/vector-service.ts:190 | each element that passes the test is kept exactly as often as it occurs in the input, and no other element is kept |
| `VectorService.WithIds` | src/services/vector-service.ts:46-50 | item i of a batch becomes a row with id timestamp + i and the item's own fields |
| `VectorService.ScoreAll` | src/services/vector-service.ts:176-189 | each row keeps its place and gets the cosine similarity for "cosine" and the euclidean similarity for any other method |
| `VectorService.Insert` | src/services/vector-service.ts:191 | inserting adds one element and keeps all the others |
| `VectorService.SliceTo` | src/services/vector-service.ts:192 | slice(0, limit) is a prefix of the input: limit elements when limit is not negative, otherwise all but the last -limit |
| `VectorService.Bump` | src/services/vector-service.ts:211 | counting a key adds at most one new key |
| `VectorService.VectorTable.constructor` | src/services/vector-service.ts:19 | a new table is empty and its ids are distinct |
| `VectorService.VectorTable.CreateBatch` | src/services/vector-service.ts:43-60 | when an id of the batch is taken, the insert fails as a whole and nothing changes; otherwise the batch is appended and read back exactly, the ids staying distinct |
| `VectorService.VectorTable.Delete` | src/services/vector-service.ts:109-122 | the result is true iff a row had the id; afterwards exactly the rows with other ids remain |
| `VectorService.VectorTable.DeleteBatch` | src/services/vector-service.ts:127-140 | the result is true iff some row had one of the ids; afterwards exactly the rows with no such id remain |
| `VectorService.VectorTable.FindSimilar` | src/services/vector-service.ts:147-195 | the results are the search specification over the rows the type filter selects, and the table is unchanged |
| `VectorService.VectorTable.GetStats` | src/services/vector-service.ts:200-219 | the total is the number of rows and the counts are those of the reduction over all rows, whatever type is passed |
| `VectorService.FilterAppend` | src/services/vector-service.ts:190 | filtering distributes over concatenation |
| `VectorService.FilterNone` | src/services/vector-service.ts:115-133 | when no element passes, nothing is kept |
| `VectorService.FilterAll` | src/services/vector-service.ts:115-133 | when every element passes, all are kept |
| `VectorService.FilterDistinct` | src/services/vector-service.ts:117-137 | deleting rows keeps the remaining ids distinct |
| `VectorService.AppendDistinct` | src/services/vector-service.ts:52 | appending rows with new, distinct ids keeps all ids distinct |
| `VectorService.BatchIdsConsecutive` | src/services/vector-service.ts:46-50 | the ids of one batch are the consecutive integers from the timestamp, hence distinct |
| `VectorService.ReadBack` | src/services/vector-service.ts:54-57 | reading a batch back by its ids gives exactly the batch, in order, when no older row has one of them |
| `VectorService.InsertSorted` | src/services/vector-service.ts:191 | inserting into a list sorted by decreasing similarity keeps it sorted |
| `VectorService.SortDescSpec` | src/services/vector-service.ts:191 | the sort orders the results by decreasing similarity and is a permutation of its input |
| `VectorService.SortDescSorted` | src/services/vector-service.ts:191 | the sorted rows are in order of decreasing similarity |
| `VectorService.SortDescPermutes` | src/services/vector-service.ts:191 | the sorted rows are the scored rows, each as often as before |
| `VectorService.SimilarSpec` | src/services/vector-service.ts:156-194 | every result reaches the threshold; the results are ordered most similar first; there are at most limit of them when limit is not negative; each result is a scored row, taken at most once |
| `VectorService.SimilarCount` | src/services/vector-service.ts:189-192 | with a non-negative limit the number of results is the smaller of the limit and the number of scored rows reaching the threshold |
| `VectorService.SimilarLeftOut` | src/services/vector-service.ts:189-192 | the results are taken from the qualifying rows, and every qualifying row left out is no more similar than the last result |
| `VectorService.PrefixLeavesLessSimilar` | src/services/vector-service.ts:191-192 | a prefix of a list sorted most similar first leaves out only elements no more similar than its last element |
| `VectorService.SliceSpec` | src/services/vector-service.ts:192 | the slice keeps the order and takes nothing that was not there |
| `VectorService.SimilarDefaults` | src/services/vector-service.ts:156-161 | without options the search uses cosine similarity, threshold 0.8 and at most 10 results |
| `VectorService.SelectedOfType` | src/services/vector-service.ts:164-173 | a type filter restricts the rows read to rows of that type |
| `VectorService.NegativeLimit` | src/services/vector-service.ts:192 | a limit of -n, for n up to the number of results, drops the last n results instead of bounding the count |
| `VectorService.BumpTotal` | src/services/vector-service.ts:211 | each counted row adds exactly one to the total of the counts |
| `VectorService.BumpCount` | src/services/vector-service.ts:211 | each counted row adds one to its own key's count and nothing to any other |
| `VectorService.BumpKeys` | src/services/vector-service.ts:211 | every key is recorded once, and only keys already recorded or the new one appear |
| `VectorService.FilterLast` | src/services/vector-service.ts:210-212 | the number of rows kept grows by one exactly when the last row passes the test |
| `VectorService.StatsSpec` | src/services/vector-service.ts:204-216 | the counts add up to the total, every key is recorded once, and each key counts exactly the rows of that type, a missing or empty type counting as "unknown" |
| `VectorService.UnknownMerged` | src/services/vector-service.ts:210 | rows whose type is missing, empty or the word "unknown" are all counted under "unknown" |

## Left out

- The workflow step engine (`WorkflowEntrypoint`, `WorkflowStep`, the metrics collector, `WorkflowTerminateError`): its module is imported by the workflows, but it is not part of this model.
- Time and sleeping: `sleep`, `setTimeout` and `Date.now()` are left out. Delays are recorded as values, and the clock is a parameter.
- Floating point: fractional delays and averages are real numbers, and JavaScript numbers are reals. NaN appears only where the source tests for it (`Number(id)` in the data-source controller).
- String encoding: JavaScript string length counts UTF-16 code units, and the model counts characters. Case mapping covers the ASCII letters only.
- Concurrency: pending promises are not modelled, and every `await` is taken to complete before the next statement.
- Network, database and file system: each becomes a parameter of the operation that uses it, never a model of the library. This covers `fetch`, `axios`, the OpenAI client, drizzle queries, `Deno.stat` and the configuration sources.
- `ConfigManagerTs`: `initDefaultConfigSources` of the TypeScript manager and `getInstance` are not modelled. The sources are added by the caller.
- `RssDailyDigest.Run`: the notifier and logger calls of `run` are left out. The digest synthesis by the language model is a parameter.
- `WorkflowDashboard`: these parts of src/services/workflow-dashboard.service.ts are not modelled:
  - `updateNextRunAt` (271-278), a single-column database update;
  - `getDashboardSnapshot` (564-573), which gathers four listings concurrently;
  - `listResults` (458-475), `listConfigs` (477-518) and `upsertConfig` (520-562), which are database plumbing over the configuration table;
  - `getInstance`.
- `LlmFactory`: `refreshAllProviders` (src/providers/llm/llm-factory.ts:152-164) is not modelled. It refreshes every cached provider concurrently and logs each failure; concurrency is outside this model.
- `LlmFactory.Factory.GetDefaultProvider`: follows the code, so only a failing configuration lookup falls back to "OPENAI". A rejection of the provider lookup escapes, because its promise is returned without being awaited inside the `try`.
- `RssHubScraper`: the LRU cache's TTL expiry and eviction are not modelled, and a cached entry never expires. `parseRSS` (189-199) is not modelled either.
- `RssHubScraper.RequestSetup.ClearCache`: the prefix test is the code's own. Clearing "/a" also clears the keys of "/ab" (`RssHubScraper.ClearCacheReachesLongerPaths`). The intent is unclear, so this is not listed as a finding.
- `CompatibleLlm.Provider.Refresh`: the health check (src/providers/llm/openai-compatible-llm.ts:52-58) only logs a warning and is left out.
- `CompatibleLlm.Provider.CreateChatCompletion`: the rethrown error holds only the client's message; the Chinese prefix of the message is not kept. The method also requires a completed `refresh`. A call before one, which would send its request to a URL starting with "undefined", is not modelled.
- `CompatibleEmbedding.Provider.Refresh`: the construction of the OpenAI client is left out. Only the settings it is built from are kept.
- `WorkflowLogGateway.Gateway.EmitLogRecord`: the JSON text sent to a socket is left out. The message is kept as a value.
- `DataSourceController`: `listDataSourcesController` (src/controllers/data-source.controller.ts:19-22) only forwards what the service returns and is left out.
- `WorkflowsController`: the three listing controllers (src/controllers/workflows.controller.ts:23-36) only forward what the service returns and are left out.
- `ListConverter.RenderList`: `makeStyleText` is a parameter, through the style strings it gives.
- `AliyunImageGenerator`: `submitTask` and `checkTaskStatus` are HTTP calls. The statuses a check returns are a parameter.
- `JinaReranker.Rerank`: the zod validation of the request body is left out, and that of the reply is part of the exchange. A reply that fails the schema carries the validation message. A reply without `results` fails the schema because the field is required, so it is rethrown as an invalid response structure (`JinaReranker.MissingResultsInvalid`). The later `!apiData.results` test can never succeed and is not modelled.
- `PromptService`: `getPromptContent` (src/services/prompt.service.ts:107-110) only returns the content of `getPrompt` and is left out. The prompts table is a map keyed by `promptId`, taken to be its unique key; the table definition is not part of this model. The "not found" error after an upsert (133-135) cannot happen in the model, because the upserted row is always there.
- `VectorService`: these parts are not modelled:
  - `create`, `update`, `getById` and `getByType`, which are single-row database calls;
  - the schema of `vector_items`.
- `VectorService.VectorTable.CreateBatch`: what the database does with an empty batch is not modelled. The model inserts nothing and returns no rows.
- `VectorService.VectorTable.FindSimilar`: these parts are not modelled:
  - NaN similarities;
  - non-integer limits;
  - the similarity measures themselves, which are parameters.

  A negative limit keeps its `slice` meaning and counts from the end (`VectorService.NegativeLimit`).
- `VectorService.VectorTable.GetStats`: the `vectorType` argument is accepted and ignored, as in the code.
- `VectorService.VectorTable.GetStats`: the order in which a JavaScript object lists its keys is not modelled. `byType` lists keys in first-seen order, but JavaScript lists integer-like keys such as "2" first, in numeric order.
- `VectorService.VectorTable.GetStats`: `acc[type] || 0` reads inherited properties of the empty object. A type named after one, such as "constructor", starts from a function rather than 0 and ends as a string, not a count. The model counts every type from 0.
- `VectorService.VectorTable.FindSimilar`: the type filter is the database's `=`. Under MySQL's default case-insensitive collation, "Text" also matches rows of type "text". The model compares exactly.
- `WorkflowRunner.RunWorkflow`: `getWorkflow` is taken to succeed, because the workflow type is one of the enum's values. A `getWorkflow` that throws before anything is recorded is not modelled.
- `WorkflowRunner.RunWorkflow`: `recordRunStart` is taken to succeed. A database failure there would throw before the `try`, record nothing and never call `execute`. That failure is not modelled. Failures of `recordRunEnd` are modelled.
- `AliyunImageGenerator.WaitForCompletion`: `getResult` is a subclass's abstract method, and here it is a total function. A `getResult` that throws is not modelled; it would reject `waitForCompletion` with its own error.
- `RssDailyDigest.CollectItems`: feed items are typed records. An item whose extraction throws part-way through a feed is not modelled. A `null` item or a non-string `content_html` would throw there, leaving that feed's earlier items pushed and dropping the rest. The model extracts every item of a fetched feed.
- `RssDailyDigest.SortNewestFirstCorrect`: a date string that `new Date` cannot parse gives NaN. The comparator then treats that item as equal to everything, and the resulting order depends on the engine. In the model, `timeOf` gives every date an integer time.
- `ConfigManagerPy.ConfigManager.GetSources`: `get_sources` returns the list object itself, so a caller that changes it changes the manager's sources. The model returns the list's value at the time of the call, and aliasing is not captured.
- `RetryUtil.RetryOperationSync`: `time.sleep` raises `ValueError` for a negative argument (src/utils/retry_util.py:57), which ends the call with that error after the failed attempt. The model does not raise it: it records the negative sleep and retries. Its contract therefore describes the source only when no delay is negative. That is the case whenever `delay_ms`, `backoff_factor` and `max_delay_ms` are non-negative (`RetryUtil.SleepsNonNegative`). A negative `delay_ms` already fails at the first retry (`RetryUtil.NegativeDelayFirstSleep`).
- `RetryUtil.RetryOperationWithStatsSync`: the same `ValueError` (src/utils/retry_util.py:114) escapes the stats variant, which otherwise never raises. The model returns a record with a negative `total_delay` instead. The lemmas built on the two methods, `AllFailuresExhaustAttempts` and `StatsAgreeWithSync` among them, carry the same limit.
- `ConfigManagerPy.ConfigManager.Get`: a negative `delay_s` makes `time.sleep` raise `ValueError` at the first retry. The model counts the sleep and goes on.
- `RssHubScraper.RssHub.Configure`: a field given explicitly as `undefined` is copied by `Object.assign` and clears that setting. The model treats such a field as absent and keeps the old value.
- `CompatibleEmbedding.Provider.SetBaseURL`: the OpenAI client built by `refresh` keeps the URL it was built with, so `setBaseURL` does not reach later requests. The model has no client, and `CreateEmbedding` sends through a parameter. So this is not captured.
- `CompatibleEmbedding.Provider.Refresh`: its two log calls are left out. One of them writes the API key to the log.
- `WorkflowLogGateway.MessageFor`: `WORKFLOW_PRESET_MAP` is modelled as the preset list in order. With duplicate ids, a Map would keep the first position and the last preset's name. The model would name the first preset instead. The presets have distinct ids (`WorkflowTypes.PresetIdsDistinct`).
- `WorkflowDashboard.RunToView`: the run's `payload` column is not carried into the view.
- `WorkflowTypes`: the workflow presets are modelled. src/types/workflows.ts, which defines the DTO types, is not part of this model.

## Findings

| source | as written | input that shows it | evidently intended | confidence | as-written member | corrected member |
|---|---|---|---|---|---|---|
| src/providers/reranker/jina/jina.reranker.ts:112-120 | a `detail` that is an array is neither a string nor an object with `msg`. The message falls through to the status line with the raw body appended | a 422 reply whose body is `{"detail": [{"msg": "field required", ...}]}`, as in src/providers/reranker/jina/tests/jina.reranker.test.ts:156, which expects "Jina Reranker API Error: field required (Status: 422)" at line 167 | the `msg` of the first entry of an array `detail` is reported in the API-error form | not executed | `JinaReranker.Rerank`, `JinaReranker.ErrorMessageAsWritten`, `JinaReranker.ArrayDetailNotUnwrapped`, `JinaReranker.ValidationErrorAsRethrown` | `JinaReranker.RerankIntended`, `JinaReranker.ErrorMessage`, `JinaReranker.ArrayDetailUnwrapped`, `JinaReranker.ValidationErrorAsIntended` |
