# kalship core, modelled in Dafny

kalship turns prediction-market bets into short videos and shows them in a
feed. This project models the parts of it that hold the decisions.

- **Job orchestration** (`backend/services/job_service.py`). The service keeps a table of job records:
  - creating a job stores a `pending` record;
  - the pipeline replaces it with `processing` and the backend's operation name, or with `error` and the message;
  - polling maps the stored status to `waiting`, `error`, `done` or not-found, and on completion rewrites the record to `done` with the public URL.
- **Worker endpoint** (`backend/controllers/worker.py`). The endpoint:
  - copies the legacy `caption` into `outcome`;
  - lists the required fields that are missing;
  - either answers 400 or runs the pipeline once.
- **Blob cache** (`frontend/lib/videoCache.ts`). Fetched videos kept as object URLs, with these rules:
  - at most eight entries, evicted oldest first, with revocation;
  - at most one fetch per URL in flight.
- **Feed updaters** (`frontend/hooks/useVideoQueue.ts`). What the feed hook does to its list:
  - append a batch and persist the non-injected items;
  - prepend generated videos unless already present;
  - splice a visualization clip 4 or 5 places ahead;
  - track the seen YouTube ids, build the batch URL, load the session copy, clear, and compute stats.
- **Visualization lookup** (`frontend/mystery.tsx`). Series-ticker lookup, then keyword scoring against topic keyword lists. The first strictly best topic wins. Picks are random.
- **Two string helpers.**
  - `normalize_shorts_style` (`backend/utils/shorts_style.py`): strip, lower-case, look up the alias table, otherwise the default.
  - `create_video_prompt` (`backend/utils/veo_prompt_builder.py`): the ordered optional parts with their prefixes, joined by a blank line, or the default text.

## Files

- `wrappers.dfy`, `text.dfy`, `py_values.dfy`: shared pieces.
  - `Option`.
  - String helpers in the semantics of the host languages: `str.replace`, `str.strip`, `str.lower`, `split(/\s+/)`, `includes`.
  - Python dict values and truthiness.
- `job_service.dfy`: the state machine.
  - The record shapes.
  - The functions that specify each operation: `ProcessedRecord` and `Resolve`.
  - The class `Jobs.JobService`.
- `job_properties.dfy`: lemmas about the job state machine and the `gs://` rewrite, plus short end-to-end runs.
- `worker.dfy`: the validator as functions, and the class `WorkerController.Worker` that dispatches to a `JobService`.
- `video_cache.dfy`: the class `VideoCache.Cache`, with its eviction loop proved against `Newest`/`ObjectUrls`.
- `video_queue.dfy`: the list updaters as functions, and the class `VideoQueue.Queue` holding the hook's state.
- `mystery.dfy`: the catalog tables, the scoring specification (`Score`, `BestUpTo`), and the two lookups as methods with their loops.
- `shorts_style.dfy`, `veo_prompt_builder.dfy`: the two helpers.

## External inputs

The clock, uuid, randomness and the backends are parameters:

- **Clock and uuid.** `now` strings and `newId` are explicit inputs.
- **Generation backend.** The image and video calls are passed in as function values that return bytes or an operation name, or raise. The poll by operation name is a function returning done with an optional URI, or not done. It never returns an error.
- **HTTP answers.** `/pool/feed` and `/pool/generated` are datatypes handed to the methods.
- **Random choices.** Each random pick is "some element of the pool" (`:|`). The clip offset is any value in {4, 5}.
- **Fetch results.** The outcome of a blob fetch is an input of `CompleteFetch`.

## Model

| member | source | states |
|---|---|---|
| Jobs.JobService.constructor | backend/services/job_service.py:12-15 | the table starts empty and nothing has been polled |
| Jobs.JobService.CreateVideoJob | backend/services/job_service.py:23-46 | stores `{status: pending, job_start_time: now}` under the new id, leaves every other entry as it was, returns that id and the payload `{title, caption, duration_seconds}` |
| Jobs.JobService.ProcessVideoJob | backend/services/job_service.py:48-83 | replaces the whole record under the id with `ProcessedRecord` (processing + operation name, or error + message, stamped with the new time); no other entry changes and nothing is polled |
| Jobs.JobService.GetJobStatus | backend/services/job_service.py:85-136 | an unknown id answers None and changes nothing; otherwise the answer, the new table and the polls are those of `Resolve` on the stored record |
| Jobs.JobService.UpdateJob | backend/services/job_service.py:138-143 | merges `data` over an existing record, or stores `data` as the record of a new id |
| Jobs.ProcessedRecord | backend/services/job_service.py:48-83 | the record the pipeline stores: KeyError text for a missing title or caption, the backend's message for a raised call, otherwise processing with the operation name; properties in ProcessedRecordShape, ProcessedOperationName, DefaultDuration, MissingCaptionIsError |
| Jobs.Resolve | backend/services/job_service.py:85-136 | the answer, record and polls of one status call; properties in the JobProperties lemmas from CreatedJobIsWaiting to FinishedTransition |
| Jobs.PublicUrl | backend/services/job_service.py:120 | None for a missing or empty URI, else every `gs://` replaced by the public host; properties in PublicUrlShape, PublicUrlIdempotent, PublicUrlOfBucketPath |
| JobProperties.CreatedJobIsWaiting | backend/services/job_service.py:28-31 | a created record answers waiting with its creation time, without polling and without a write |
| JobProperties.ProcessedRecordShape | backend/services/job_service.py:70-83 | the pipeline's record is exactly `{status, operation_name, job_start_time}` with status processing, or exactly `{status, error, job_start_time}` with status error, stamped with the new time |
| JobProperties.ProcessedOperationName | backend/services/job_service.py:56-74 | when both backend calls succeed, the stored operation name is the one the video backend returned for the frame the image backend produced from `title\ncaption` |
| JobProperties.DefaultDuration | backend/services/job_service.py:53 | a payload without `duration_seconds` runs exactly as one with duration 6 |
| JobProperties.MissingCaptionIsError | backend/services/job_service.py:51-52 | a payload with a title but no `caption` key becomes an error record with message `'caption'` |
| JobProperties.PipelineRestampsStartTime | backend/services/job_service.py:73 | the pipeline does not keep the creation time: the stored start time is the pipeline's time |
| JobProperties.UnknownStatusIsNotFound | backend/services/job_service.py:115-136 | a status other than pending/error/done, or processing without an operation name, answers None with no poll and no write |
| JobProperties.PendingAndErrorArePassive | backend/services/job_service.py:96-105 | pending answers waiting; error answers error carrying the stored message; neither polls or writes |
| JobProperties.DoneIsCached | backend/services/job_service.py:108-113 | a done record answers with its stored URL whatever the backend says, with no poll and no write |
| JobProperties.ProcessingNeverFails | backend/services/job_service.py:116-134 | polling a processing job never answers error |
| JobProperties.NotDoneIsWaiting | backend/services/job_service.py:116-117 | a poll that reports not done answers waiting with the stored start time, polls once, and writes nothing |
| JobProperties.FinishedTransition | backend/services/job_service.py:119-129 | a finished poll sets `status` to done and `video_url` to the rewritten URI, keeps every other key, answers done with that URL, and every later poll answers the same without polling |
| JobProperties.PublicUrlShape | backend/services/job_service.py:120 | the URL is None exactly when the URI is missing or empty; otherwise no `gs://` is left in it |
| JobProperties.RewriteLeavesNoGs | backend/services/job_service.py:120 | after replacing every `gs://` by the public host, the text contains no `gs://` |
| JobProperties.PublicUrlIdempotent | backend/services/job_service.py:120 | rewriting an already rewritten URL changes nothing |
| JobProperties.PublicUrlOfBucketPath | backend/services/job_service.py:120 | `gs://bucket/path` becomes `https://storage.googleapis.com/bucket/path` |
| JobProperties.RewritePrefixSurvives | backend/services/job_service.py:120 | a prefix free of `h` of the rewritten text is a prefix of the original |
| JobProperties.CreateAndPoll | backend/services/job_service.py:23-31 | creating a job and polling it answers waiting with the creation time |
| JobProperties.CreateAndDispatch | backend/services/job_service.py:48-74 | a created job that has run through the pipeline and is still running answers waiting with the pipeline's time |
| JobProperties.CompleteAndRepoll | backend/services/job_service.py:116-129 | after the pipeline, a finished operation answers done with the public URL of `gs://path`, and a second poll answers the same |
| WorkerController.WithOutcomeAlias | backend/controllers/worker.py:13-14 | `outcome` becomes truthy exactly when `outcome` or `caption` was; a truthy `outcome` is never overwritten; no other key changes |
| WorkerController.MissingFields | backend/controllers/worker.py:16-17 | the required keys whose `data.get` is falsy, in order; properties in MissingFieldsExact and MissingRequiredInOrder |
| WorkerController.MissingFieldsExact | backend/controllers/worker.py:16-17 | a key is listed exactly when it is required and its value is absent or falsy |
| WorkerController.MissingRequiredInOrder | backend/controllers/worker.py:16-17 | the list is job_id, title, outcome, original_bet_link in that order, each present exactly when falsy |
| WorkerController.Decide | backend/controllers/worker.py:13-29 | rejection exactly when some required field is missing, with message `Missing required fields: ` and the names joined by `, `; otherwise dispatch with the aliased payload and the truthy `job_id` |
| WorkerController.DispatchIff | backend/controllers/worker.py:13-19 | the pipeline runs if and only if all four required fields are truthy after the alias |
| WorkerController.ManagedTaskRejected | backend/controllers/worker.py:16-22 | the task body job creation sends lacks `original_bet_link`, so the endpoint always rejects it, also naming the empty job_id/title/caption |
| WorkerController.OutcomeOnlyPayloadFails | backend/services/job_service.py:51-52 | a payload the endpoint accepts but that has no `caption` key ends as the error record `'caption'` |
| WorkerController.Worker.ProcessJob | backend/controllers/worker.py:10-29 | a rejected payload answers 400 with the message and leaves the table alone; an accepted one runs the pipeline once on the aliased payload and answers 200 `{status: processing, job_id}` |
| VideoCache.Newest | frontend/lib/videoCache.ts:4-16 | what survives eviction is the last min(n, 8) URLs of the order |
| VideoCache.FetchedEntrySurvives | frontend/lib/videoCache.ts:38-40 | the URL just fetched is the newest entry and always survives the eviction that follows |
| VideoCache.EvictionIsFifo | frontend/lib/videoCache.ts:6-9 | when an entry survives, every entry inserted after it survives too |
| VideoCache.DropOldest | frontend/lib/videoCache.ts:7-14 | dropping the front of the order and its table entry keeps table keys equal to the order's elements |
| VideoCache.AppendNewest | frontend/lib/videoCache.ts:36-39 | adding an uncached URL at the end keeps table and order consistent |
| VideoCache.EvictStep | frontend/lib/videoCache.ts:7-15 | one round of the loop keeps the eviction invariant |
| VideoCache.EvictDone | frontend/lib/videoCache.ts:7 | when the loop stops, the order is the newest eight and the revoked list is the dropped entries' object URLs, oldest first |
| VideoCache.Cache.constructor | frontend/lib/videoCache.ts:1-3 | empty table, order and in-flight map, all invariants hold |
| VideoCache.Cache.GetPrefetchedVideoUrl | frontend/lib/videoCache.ts:18-21 | nothing for an empty URL; otherwise exactly the table's entry |
| VideoCache.Cache.InflightPromise | frontend/lib/videoCache.ts:25-28 | a promise is answered exactly when a fetch of that URL is registered as in flight |
| VideoCache.Cache.EvictIfNeeded | frontend/lib/videoCache.ts:6-16 | the order becomes its newest eight, the table is cut down to them, and each dropped entry's object URL is revoked in order |
| VideoCache.Cache.DropOldestEntry | frontend/lib/videoCache.ts:8-14 | the front URL leaves the order and the table, and its object URL is revoked |
| VideoCache.Cache.BeginFetch | frontend/lib/videoCache.ts:23-52 | a fetch starts and is registered only for a non-empty, uncached, not in-flight URL in a browser; otherwise the existing promise (or none) is returned and nothing changes |
| VideoCache.Cache.CompleteFetch | frontend/lib/videoCache.ts:33-49 | success caches the object URL as newest, evicts, and serves it afterwards; failure settles to null and leaves the cache alone; either way the URL is no longer in flight |
| VideoCache.PrefetchTwice | frontend/lib/videoCache.ts:27-29 | a second prefetch of the same URL returns the first call's promise |
| VideoCache.FetchThenLookup | frontend/lib/videoCache.ts:18-41 | after a successful fetch the lookup returns its object URL |
| VideoQueue.ApiUrl | frontend/hooks/useVideoQueue.ts:8 | the base URL is never empty: the configured URL when set and non-empty, the localhost default otherwise |
| VideoQueue.GeneratedItem | frontend/hooks/useVideoQueue.ts:106-113 | id `generated-<job_id>`, injected, with an empty YouTube id |
| VideoQueue.PrependAll | frontend/hooks/useVideoQueue.ts:105-119 | the feed after each polled video's updater ran in turn; properties in PrependAllKeepsIds, PrependAllAddsIds, PrependAllPresent, PollIsIdempotent, PrependAllKeepsIdsDistinct |
| VideoQueue.PrependIfAbsent | frontend/hooks/useVideoQueue.ts:115-119 | unchanged when the id is present; otherwise the item in front of the old list |
| VideoQueue.PrependAllKeepsIds | frontend/hooks/useVideoQueue.ts:115-119 | a poll never drops an item id |
| VideoQueue.PrependAllAddsIds | frontend/hooks/useVideoQueue.ts:105-119 | after a poll every polled video's item is in the feed |
| VideoQueue.PrependAllPresent | frontend/hooks/useVideoQueue.ts:117 | when every polled video is already present, the poll changes nothing |
| VideoQueue.PollIsIdempotent | frontend/hooks/useVideoQueue.ts:105-119 | polling the same answer twice gives the feed of polling it once |
| VideoQueue.PrependAllKeepsIdsDistinct | frontend/hooks/useVideoQueue.ts:115-119 | a poll keeps item ids pairwise distinct |
| VideoQueue.SpliceIndex | frontend/hooks/useVideoQueue.ts:158 | `splice`'s start index: negative counts from the end, clamped to the array |
| VideoQueue.SpliceInsert | frontend/hooks/useVideoQueue.ts:157-158 | one longer, the item at the splice index, and the old items in order around it |
| VideoQueue.InsertLandsAhead | frontend/hooks/useVideoQueue.ts:156-158 | the clip lands at `min(currentIndex + offset, length)` |
| VideoQueue.InjectedItem | frontend/hooks/useVideoQueue.ts:144-151 | injected, no YouTube id, the one market, the mp4 URL and label, the bet side |
| VideoQueue.NonInjected | frontend/hooks/useVideoQueue.ts:77 | exactly the items that are not injected, a sub-multiset of the input, in their original order (a subsequence) |
| VideoQueue.NonInjectedAppend | frontend/hooks/useVideoQueue.ts:75-77 | filtering the appended list is filtering each part |
| VideoQueue.AddSeenIds | frontend/hooks/useVideoQueue.ts:70-72 | the seen-id Set after adding each item's non-empty YouTube id; properties in AddSeenIdsSpec |
| VideoQueue.AddSeenIdsSpec | frontend/hooks/useVideoQueue.ts:70-72 | the seen ids keep the old ones in front, gain exactly the non-empty YouTube ids of the items, and stay distinct |
| VideoQueue.ExcludeParam | frontend/hooks/useVideoQueue.ts:62-64 | empty exactly when no id has been seen |
| VideoQueue.FeedRequestUrl | frontend/hooks/useVideoQueue.ts:62-65 | `${API_URL}/pool/feed?count=${count}` followed by ExcludeParam of the seen ids |
| VideoQueue.LoadFeedResults | frontend/hooks/useVideoQueue.ts:19-30 | items only in a browser, for a non-empty stored text that parses to a non-empty array, and then exactly those items |
| VideoQueue.LoadAfterSave | frontend/hooks/useVideoQueue.ts:12-30 | a saved non-empty list loads back as itself when the encoding round-trips |
| VideoQueue.FeedStats | frontend/hooks/useVideoQueue.ts:176-182 | total is the item count, matched is the number of non-injected items (so at most total), the other counts 0 |
| VideoQueue.StatsDeltas | frontend/hooks/useVideoQueue.ts:74-182 | a batch adds its non-injected items to matched; a poll leaves matched alone |
| VideoQueue.PrependAllMatched | frontend/hooks/useVideoQueue.ts:115-119 | a poll adds only injected items |
| VideoQueue.SpliceKeepsCover | frontend/hooks/useVideoQueue.ts:155-159 | splicing in an item without a YouTube id keeps every feed YouTube id among the seen ids |
| VideoQueue.PrependKeepsCover | frontend/hooks/useVideoQueue.ts:115-119 | prepending such an item keeps the same property |
| VideoQueue.Queue.constructor | frontend/hooks/useVideoQueue.ts:33-38 | empty feed, no error, not initialized, no seen ids |
| VideoQueue.Queue.MarkSeen | frontend/hooks/useVideoQueue.ts:70-72 | the seen ids become `AddSeenIds` of the items; nothing else changes |
| VideoQueue.Queue.FetchBatch | frontend/hooks/useVideoQueue.ts:58-85 | requests the batch URL with the exclude list; on success appends the results, records their ids and persists the non-injected items; on failure records the error text and changes nothing else |
| VideoQueue.Queue.Mount | frontend/hooks/useVideoQueue.ts:41-85 | once only: restores a non-empty session copy and records its ids, or else fetches the first batch of 10 and leaves the feed, seen ids, session copy and error exactly as that fetch sets them |
| VideoQueue.Queue.PollGenerated | frontend/hooks/useVideoQueue.ts:97-134 | an array answer prepends each video's item unless present, in order, and consumes each job id; any other answer changes nothing |
| VideoQueue.Queue.PrependGenerated | frontend/hooks/useVideoQueue.ts:105-122 | one round: prepend unless present, consume the job id |
| VideoQueue.Queue.InsertMp4 | frontend/hooks/useVideoQueue.ts:136-161 | no entry or a non-mp4 entry leaves the feed alone; an mp4 entry is spliced at `min(currentIndex + offset, length)` with offset 4 or 5 |
| VideoQueue.Queue.ClearQueue | frontend/hooks/useVideoQueue.ts:168-174 | empties feed and seen ids and drops the session copy in a browser |
| Mystery.KeywordScore | frontend/mystery.tsx:92-96 | a word scores at most one point per topic keyword |
| Mystery.Score | frontend/mystery.tsx:90-97 | the number of matching (word, topic keyword) pairs; properties in ScoreZeroIff and ScoreTopic |
| Mystery.BestUpTo | frontend/mystery.tsx:85-102 | the best topic and score after scanning the first n table entries; properties in BestUpToIsMaximum and FirstMaximumWins |
| Mystery.BestTopic | frontend/mystery.tsx:85-102 | the topic the full scan settles on; properties in NoTopicIffNoMatch |
| Mystery.KeywordScoreZeroIff | frontend/mystery.tsx:92-96 | a word scores 0 exactly when it matches no topic keyword |
| Mystery.ScoreZeroIff | frontend/mystery.tsx:90-97 | a topic scores 0 exactly when no word and keyword contain one another |
| Mystery.BestUpToIsMaximum | frontend/mystery.tsx:85-102 | the best score is the maximum over non-General topics, attained by one of them; a topic is chosen exactly when it is positive, and never General |
| Mystery.FirstMaximumWins | frontend/mystery.tsx:98-101 | on ties the first topic in table order wins |
| Mystery.NoTopicIffNoMatch | frontend/mystery.tsx:85-106 | no topic is chosen exactly when no word matches any keyword of a non-General topic |
| Mystery.EmptyWordMatchesEveryKeyword | frontend/mystery.tsx:93 | an empty word is contained in every keyword |
| Mystery.Filter | frontend/mystery.tsx:68-105 | exactly the entries of that topic |
| Mystery.Pool | frontend/mystery.tsx:104-106 | the chosen topic's entries, or all entries when none was chosen |
| Mystery.LowerAll | frontend/mystery.tsx:83 | each word lower-cased |
| Mystery.TickerTopic | frontend/mystery.tsx:57-66 | a topic exactly for the five listed tickers, all Superbowl |
| Mystery.PickRandom | frontend/mystery.tsx:69-109 | a member of the pool |
| Mystery.ScoreTopic | frontend/mystery.tsx:90-97 | the loops compute `Score` |
| Mystery.FindVisualizationVideo | frontend/mystery.tsx:82-110 | null exactly when the pool is empty, otherwise a member of the pool of the best topic |
| Mystery.FindVisualizationBySeriesTicker | frontend/mystery.tsx:65-80 | null exactly when there are no videos; a known ticker with videos yields its topic; otherwise a question with a non-empty pool yields a member of it |
| Mystery.CatalogCoversEveryTopic | frontend/mystery.tsx:18-48 | the shipped catalog has a video for every topic other than General |
| Mystery.CatalogPoolNeverEmpty | frontend/mystery.tsx:18-108 | with the shipped catalog the keyword lookup never returns null |
| ShortsStyle.NormalizeShortsStyle | backend/utils/shorts_style.py:24-26 | any style other than the default comes from the alias table under the stripped, lower-cased key |
| ShortsStyle.StyleKey | backend/utils/shorts_style.py:25 | `(style or "").strip().lower()`; properties in NormalizeIgnoresCase, NormalizeIgnoresPadding, BlankIsDefault |
| ShortsStyle.NormalizeIgnoresCase | backend/utils/shorts_style.py:25 | a string and its lower-cased form give the same style |
| ShortsStyle.NormalizeIgnoresPadding | backend/utils/shorts_style.py:25 | surrounding whitespace does not change the style |
| ShortsStyle.StripIgnoresPadding | backend/utils/shorts_style.py:25 | `strip` of a padded string is `strip` of the string |
| ShortsStyle.BlankIsDefault | backend/utils/shorts_style.py:5-26 | None, empty and whitespace-only give action_commentary |
| ShortsStyle.NameIsAlias | backend/utils/shorts_style.py:7-21 | every canonical name is a key mapped to its own style |
| ShortsStyle.NormalizeIsIdempotent | backend/utils/shorts_style.py:24-26 | normalizing the name of a normalized style gives the same style |
| ShortsStyle.PaddedWordAlias | backend/utils/shorts_style.py:14-26 | a word in any case with any padding (such as ` MUSIC `) gives the alias of its lower-cased form |
| VeoPromptBuilder.PromptParts | backend/utils/veo_prompt_builder.py:7-16 | at most three parts; none exactly when no argument is truthy; a truthy custom prompt is one of them verbatim |
| VeoPromptBuilder.VideoPrompt | backend/utils/veo_prompt_builder.py:7-18 | the parts joined by a blank line, or "Generate a video" when there are none; properties in NothingGivenIsDefault, EmptyIsAbsent, SinglePartStandsAlone, FullPromptOrder |
| VeoPromptBuilder.CreateVideoPrompt | backend/utils/veo_prompt_builder.py:1-18 | the appends and join produce `VideoPrompt` |
| VeoPromptBuilder.NothingGivenIsDefault | backend/utils/veo_prompt_builder.py:18 | with nothing given the prompt is `Generate a video` |
| VeoPromptBuilder.EmptyIsAbsent | backend/utils/veo_prompt_builder.py:9-15 | an empty string acts exactly as None, for each argument |
| VeoPromptBuilder.SinglePartStandsAlone | backend/utils/veo_prompt_builder.py:10-18 | a single part is the prompt verbatim or with its prefix, without separator |
| VeoPromptBuilder.FullPromptOrder | backend/utils/veo_prompt_builder.py:9-18 | all three give context, custom prompt, notes, in that order, separated by a blank line |
| Text.ReplaceAllAbsent | backend/services/job_service.py:120 | replacing an absent pattern changes nothing |
| Text.ReplaceAllPrefix | backend/services/job_service.py:120 | a leading pattern becomes the replacement |
| Text.ReplaceAll | backend/services/job_service.py:120 | Python `str.replace`: every non-overlapping occurrence, left to right, replaced; properties in ReplaceAllAbsent, ReplaceAllPrefix, RewriteLeavesNoGs |
| Text.Contains | frontend/mystery.tsx:93 | JavaScript `includes`: the pattern occurs at some position |
| Text.Join | backend/controllers/worker.py:20 | Python `sep.join` and JavaScript `join`: the parts with the separator between neighbours |
| Text.Lower | frontend/mystery.tsx:83 | same length, each character lower-cased |
| Text.LowerIdempotent | backend/utils/shorts_style.py:25 | lower-casing twice is lower-casing once |
| Text.Strip | backend/utils/shorts_style.py:25 | no whitespace left at either end |
| Text.StripBlank | backend/utils/shorts_style.py:25 | a whitespace-only string strips to empty |
| Text.SplitWs | frontend/mystery.tsx:73 | at least one piece |
| Text.SplitPiecesHaveNoSpace | frontend/mystery.tsx:73 | no piece contains whitespace |
| Text.SplitWord | frontend/mystery.tsx:73 | a string without whitespace splits into itself |
| PyValues.Get | backend/controllers/worker.py:13-17 | `dict.get`: a value other than None means the key is present |
| PyValues.Truthy | backend/controllers/worker.py:13-17 | Python truthiness: None, False, 0 and "" are falsy |
| PyValues.PyStr | backend/services/job_service.py:62 | `str(v)` as the f-string formats it: None, True/False, the decimal digits, the string itself |

## Left out

- Concurrency. There is no event loop, no Cloud Tasks queue and no application wiring.
  - `create_video_job` returns the id and the payload. The caller then runs `ProcessVideoJob`, or passes the task body to `Worker.ProcessJob`.
  - `cloud_tasks_service.py` is not part of this model.
- Backend SDK. The image and video generation calls and the poll by name are function-valued parameters. Logging and `traceback` output are not modelled.
- Python values. Values are None, booleans, integers and strings. Lists, dicts and floats inside a record are not modelled; the `bet` field is left out.
- Start times. `datetime.fromisoformat` and `.isoformat()` are treated as the identity on the stored string. `get_job_status` raises ValueError when the stored start time is a string `fromisoformat` cannot parse (line 93). Such a string can arrive through `update_job`. The model answers in that case.
- Job keys. A truthy `job_id` that is not a string is keyed by its `str()` form.
- Case and whitespace.
  - Lower-casing is ASCII only.
  - Python and JS whitespace follow the Unicode space lists of the two languages.
  - There is no Unicode case folding.
- `sessionStorage`. The stored copy is a field holding the items, and `LoadFeedResults` takes the text and a parser as parameters. Serialization and the quota-exceeded catch are not modelled.
- React plumbing is not modelled:
  - the timers (`setInterval`, `setTimeout`);
  - the `isLoading` flag;
  - `requestMore` and the `fetchingMore` guard;
  - `retryFailed`, which is `FetchBatch` after clearing the error.
- Consume requests. The POST is recorded as the ghost log `consumed`; its answer is ignored, as in the source.
- The visualization catalog is a parameter of the lookups, so every branch, including an empty pool, stays reachable. `CatalogCoversEveryTopic` and `CatalogPoolNeverEmpty` state the facts about the shipped catalog.
- `SERIES_TO_TOPIC` is looked up as a plain map. Inherited JavaScript object keys such as `constructor` are treated as not found.
- An absent URL (`undefined`) in the blob cache is modelled by the empty string.
- The `if (!url) break` guard in `evictIfNeeded` is not modelled. The cache invariant rules out empty URLs in the order, so it cannot fire.
- `URL.revokeObjectURL` calls are recorded as the ghost log `revoked`.
- A poll answer whose element is `null` or lacks fields is not modelled. Each element is a record with a job id, title, URL, markets and bet side.
- `VideoQueue.Queue.InsertMp4` splices into a copy held as a sequence. An in-place array splice is not modelled.
- Job states, as `job_service.py` has them:
  - `process_video_job` re-stamps `job_start_time` with its own time (lines 73 and 82);
  - `get_job_status` answers None for any other status, or for processing without an operation name (lines 115-136).
- `WorkerController.ManagedTaskRejected`: the managed-queue task body never carries `original_bet_link`, so the endpoint rejects every such task with 400. This is recorded as the code's behaviour, not as intended behaviour.
- `Mystery.EmptyWordMatchesEveryKeyword`: an empty word (for example from a question with leading whitespace) matches every keyword, because `includes` is true of the empty string.
