/** Properties of the job state machine modelled in module Jobs. */
module JobProperties {
  import opened Wrappers
  import opened PyValues
  import opened Text
  import opened Jobs

  // ---- creation ----

  /** A freshly created job answers `waiting` with its creation time, without polling and without a write. */
  lemma CreatedJobIsWaiting(now: string, poll: PollBackend)
    ensures Resolve(PendingRecord(now), poll) ==
            StatusStep(Some(JobStatus(Waiting, if now != "" then Str(now) else Nil, Nil, Nil)), PendingRecord(now), [])
  {
  }

  // ---- the pipeline ----

  /**
   * process_video_job replaces the record with exactly one of two shapes,
   * both stamped with the new time: processing with the backend's
   * operation name when both backend calls succeed, error otherwise.
   */
  lemma ProcessedRecordShape(jobData: Dict, image: ImageBackend, video: VideoBackend, now: string)
    ensures var r := ProcessedRecord(jobData, image, video, now);
      r["job_start_time"] == Str(now) &&
      ((r["status"] == Str("processing") && r.Keys == {"status", "operation_name", "job_start_time"}) ||
       (r["status"] == Str("error") && r.Keys == {"status", "error", "job_start_time"}))
    ensures var r := ProcessedRecord(jobData, image, video, now);
      r["status"] == Str("processing") <==>
        ("title" in jobData && "caption" in jobData &&
         var prompt := FramePrompt(jobData["title"], jobData["caption"]);
         image(prompt).Ok? && video(prompt, image(prompt).value, Duration(jobData)).Ok?)
  {
  }

  /** On success the stored operation name is the one the video backend returned for the start frame the image backend produced. */
  lemma ProcessedOperationName(jobData: Dict, image: ImageBackend, video: VideoBackend, now: string)
    requires "title" in jobData && "caption" in jobData
    requires var prompt := FramePrompt(jobData["title"], jobData["caption"]);
      image(prompt).Ok? && video(prompt, image(prompt).value, Duration(jobData)).Ok?
    ensures var prompt := FramePrompt(jobData["title"], jobData["caption"]);
      ProcessedRecord(jobData, image, video, now) ==
        ProcessingRecord(video(prompt, image(prompt).value, Duration(jobData)).value, now)
  {
  }

  /** A payload without a duration runs exactly as one with duration 6. */
  lemma DefaultDuration(jobData: Dict, image: ImageBackend, video: VideoBackend, now: string)
    requires "duration_seconds" !in jobData
    ensures ProcessedRecord(jobData, image, video, now) ==
            ProcessedRecord(jobData["duration_seconds" := Int(6)], image, video, now)
  {
    var d' := jobData["duration_seconds" := Int(6)];
    assert Duration(d') == Int(6) == Duration(jobData);
  }

  /** A payload whose `caption` key is absent (as in the worker's newer payload shape) ends in an error record naming the key. */
  lemma MissingCaptionIsError(jobData: Dict, image: ImageBackend, video: VideoBackend, now: string)
    requires "title" in jobData && "caption" !in jobData
    ensures ProcessedRecord(jobData, image, video, now) == ErrorRecord("'caption'", now)
  {
    assert KeyErrorMessage("caption") == "'caption'";
  }

  /** The start time written by the pipeline is the pipeline's own clock reading, whatever the record held before. */
  lemma PipelineRestampsStartTime(jobData: Dict, image: ImageBackend, video: VideoBackend, created: string, now: string)
    requires created != now
    ensures ProcessedRecord(jobData, image, video, now)["job_start_time"] != PendingRecord(created)["job_start_time"]
  {
  }

  // ---- status resolution ----

  /** Stored statuses other than pending, error, done and processing-with-a-name give None, which the HTTP layer reports as 404. */
  lemma UnknownStatusIsNotFound(job: Dict, poll: PollBackend)
    requires Get(job, "status") !in {Str("pending"), Str("error"), Str("done")}
    requires Get(job, "status") != Str("processing") || !Truthy(Get(job, "operation_name"))
    ensures Resolve(job, poll) == StatusStep(None, job, [])
  {
  }

  /** Pending and error records are answered from the record alone: no poll, no write, and error carries the stored message. */
  lemma PendingAndErrorArePassive(job: Dict, poll: PollBackend)
    requires Get(job, "status") == Str("pending") || Get(job, "status") == Str("error")
    ensures var step := Resolve(job, poll);
      step.after == job && step.polls == [] && step.response.Some? &&
      (Get(job, "status") == Str("pending") ==> step.response.value.status == Waiting) &&
      (Get(job, "status") == Str("error") ==>
         step.response.value.status == Failed && step.response.value.error == Get(job, "error"))
  {
  }

  /** A done record returns its cached URL, whatever the backend would say, and is left as it is. */
  lemma DoneIsCached(job: Dict, poll1: PollBackend, poll2: PollBackend)
    requires Get(job, "status") == Str("done")
    ensures Resolve(job, poll1) == Resolve(job, poll2)
    ensures Resolve(job, poll1).after == job && Resolve(job, poll1).polls == []
    ensures Resolve(job, poll1).response.Some? && Resolve(job, poll1).response.value.videoUrl == Get(job, "video_url")
  {
  }

  /** Polling a processing job never answers `error`: the only poll result acted on is completion. */
  lemma ProcessingNeverFails(job: Dict, poll: PollBackend)
    requires Get(job, "status") == Str("processing")
    ensures Resolve(job, poll).response.Some? ==> Resolve(job, poll).response.value.status != Failed
  {
  }

  /** A poll that reports not-done answers `waiting` and writes nothing. */
  lemma NotDoneIsWaiting(job: Dict, poll: PollBackend)
    requires Get(job, "status") == Str("processing") && Truthy(Get(job, "operation_name"))
    requires poll(job["operation_name"]) == NotDone
    ensures var step := Resolve(job, poll);
      step.after == job && step.polls == [job["operation_name"]] &&
      step.response == Some(JobStatus(Waiting, if Truthy(Get(job, "job_start_time")) then job["job_start_time"] else Nil, Nil, Nil))
  {
  }

  /**
   * A poll that reports completion rewrites status and video_url only,
   * answers `done` with the stored URL, and from then on every poll takes
   * the cached branch: the same answer, no backend poll, no write.
   */
  lemma FinishedTransition(job: Dict, poll: PollBackend, later: PollBackend)
    requires Get(job, "status") == Str("processing") && Truthy(Get(job, "operation_name"))
    requires poll(job["operation_name"]).Finished?
    ensures var step := Resolve(job, poll);
      var url := PublicUrl(poll(job["operation_name"]).videoUri);
      step.after.Keys == job.Keys + {"video_url"} &&
      step.after["status"] == Str("done") && step.after["video_url"] == url &&
      (forall k :: k in job && k != "status" && k != "video_url" ==> step.after[k] == job[k]) &&
      step.response == Some(JobStatus(Done, if Truthy(Get(job, "job_start_time")) then job["job_start_time"] else Nil, url, Nil)) &&
      Resolve(step.after, later) == StatusStep(step.response, step.after, [])
  {
    var step := Resolve(job, poll);
    assert "status" in job;
    assert Get(step.after, "job_start_time") == Get(job, "job_start_time");
  }

  // ---- the gs:// rewrite ----

  /** How the rewrite's output begins: unchanged for a short input, with the public host after a leading gs://. */
  lemma RewriteHead(t: string)
    ensures |t| < |GcsScheme| ==> ReplaceAll(t, GcsScheme, PublicPrefix) == t
    ensures |t| >= |GcsScheme| && t[..|GcsScheme|] == GcsScheme ==>
      ReplaceAll(t, GcsScheme, PublicPrefix)[0] == 'h'
  {
  }

  /** A prefix free of 'h' that the rewrite's output starts with was already there in the input. */
  lemma {:induction false} RewritePrefixSurvives(t: string, p: string)
    requires forall i :: 0 <= i < |p| ==> p[i] != 'h'
    requires p <= ReplaceAll(t, GcsScheme, PublicPrefix)
    ensures p <= t
    decreases |t|
  {
    RewriteHead(t);
    if p != [] && |t| >= |GcsScheme| && t[..|GcsScheme|] != GcsScheme {
      assert p[1..] <= ReplaceAll(t[1..], GcsScheme, PublicPrefix);
      RewritePrefixSurvives(t[1..], p[1..]);
    }
  }

  /** Where the public host prefix has a 'g', no 's' follows, and it does not end in 'g'. */
  lemma PublicPrefixLetters()
    ensures forall k :: 0 <= k < |PublicPrefix| - 1 && PublicPrefix[k] == 'g' ==> PublicPrefix[k + 1] != 's'
    ensures PublicPrefix[|PublicPrefix| - 1] != 'g'
  {
  }

  lemma {:induction false} ShortDoesNotContain(s: string, t: string)
    requires |s| < |t|
    ensures !Contains(s, t)
    decreases |s|
  {
    if s != [] {
      ShortDoesNotContain(s[1..], t);
    }
  }

  /** The public host prefix, or any suffix of it, followed by gs://-free text holds no gs://. */
  lemma {:induction false} PrefixThenNoGs(k: nat, y: string)
    requires k <= |PublicPrefix| && !Contains(y, GcsScheme)
    ensures !Contains(PublicPrefix[k..] + y, GcsScheme)
    decreases |PublicPrefix| - k
  {
    if k < |PublicPrefix| {
      PrefixThenNoGs(k + 1, y);
      assert (PublicPrefix[k..] + y)[1..] == PublicPrefix[k + 1..] + y;
      PublicPrefixLetters();
      assert (PublicPrefix[k..] + y)[0] == PublicPrefix[k];
      if k + 1 < |PublicPrefix| {
        assert (PublicPrefix[k..] + y)[1] == PublicPrefix[k + 1];
      }
    } else {
      assert PublicPrefix[k..] + y == y;
    }
  }

  /** After the rewrite, no gs:// is left anywhere in the URL. */
  lemma {:induction false} RewriteLeavesNoGs(s: string)
    ensures !Contains(ReplaceAll(s, GcsScheme, PublicPrefix), GcsScheme)
    decreases |s|
  {
    if |s| < |GcsScheme| {
      ShortDoesNotContain(s, GcsScheme);
    } else if s[..|GcsScheme|] == GcsScheme {
      RewriteLeavesNoGs(s[|GcsScheme|..]);
      PrefixThenNoGs(0, ReplaceAll(s[|GcsScheme|..], GcsScheme, PublicPrefix));
      assert PublicPrefix[0..] == PublicPrefix;
    } else {
      var r := ReplaceAll(s[1..], GcsScheme, PublicPrefix);
      RewriteLeavesNoGs(s[1..]);
      if "s://" <= r {
        RewritePrefixSurvives(s[1..], "s://");
      }
      assert ([s[0]] + r)[1..] == r;
    }
  }

  /** The client URL is None exactly for a missing or empty URI; otherwise it holds no gs:// left. */
  lemma PublicUrlShape(uri: Option<string>)
    ensures PublicUrl(uri) == Nil <==> uri.None? || uri.value == ""
    ensures PublicUrl(uri).Str? ==> !Contains(PublicUrl(uri).s, GcsScheme)
  {
    if uri.Some? && uri.value != "" {
      RewriteLeavesNoGs(uri.value);
    }
  }

  /** Rewriting a URL that has already been rewritten changes nothing. */
  lemma PublicUrlIdempotent(uri: string)
    requires uri != ""
    ensures PublicUrl(Some(uri)).Str?
    ensures PublicUrl(Some(PublicUrl(Some(uri)).s)) == PublicUrl(Some(uri))
  {
    RewriteLeavesNoGs(uri);
    ReplaceAllAbsent(ReplaceAll(uri, GcsScheme, PublicPrefix), GcsScheme, PublicPrefix);
  }

  /** A gs://bucket/path URI becomes the public https URL of the same bucket path. */
  lemma PublicUrlOfBucketPath(path: string)
    requires !Contains(path, GcsScheme)
    ensures PublicUrl(Some(GcsScheme + path)) == Str(PublicPrefix + path)
  {
    ReplaceAllPrefix(GcsScheme, PublicPrefix, path);
    ReplaceAllAbsent(path, GcsScheme, PublicPrefix);
  }

  /** A created job answers waiting with its creation time. */
  method CreateAndPoll(request: VideoJobRequest, id: string, t0: string, notDone: PollBackend)
      returns (first: Option<JobStatus>)
    requires t0 != ""
    ensures first == Some(JobStatus(Waiting, Str(t0), Nil, Nil))
  {
    var svc := new JobService();
    var jobId, payload := svc.CreateVideoJob(request, id, t0);
    CreatedJobIsWaiting(t0, notDone);
    first := svc.GetJobStatus(jobId, notDone);
  }

  /** A service holding one job that was created and then run through a pipeline whose backends both succeed. */
  method Dispatched(request: VideoJobRequest, id: string, t0: string, t1: string, op: string,
                    image: ImageBackend, video: VideoBackend)
      returns (svc: JobService)
    requires forall prompt :: image(prompt).Ok?
    requires forall prompt, frame, duration :: video(prompt, frame, duration) == Ok(op)
    ensures fresh(svc)
    ensures svc.jobs == map[id := ProcessingRecord(op, t1)]
  {
    svc := new JobService();
    var jobId, payload := svc.CreateVideoJob(request, id, t0);
    ProcessedOperationName(payload, image, video, t1);
    svc.ProcessVideoJob(jobId, payload, image, video, t1);
  }

  /** Once dispatched and running, a job answers waiting with the pipeline's time. */
  method CreateAndDispatch(request: VideoJobRequest, id: string, t0: string, t1: string, op: string,
                           image: ImageBackend, video: VideoBackend, notDone: PollBackend)
      returns (running: Option<JobStatus>)
    requires t1 != "" && op != ""
    requires forall prompt :: image(prompt).Ok?
    requires forall prompt, frame, duration :: video(prompt, frame, duration) == Ok(op)
    requires forall name :: notDone(name) == NotDone
    ensures running == Some(JobStatus(Waiting, Str(t1), Nil, Nil))
  {
    var svc := Dispatched(request, id, t0, t1, op, image, video);
    NotDoneIsWaiting(ProcessingRecord(op, t1), notDone);
    running := svc.GetJobStatus(id, notDone);
  }

  /** A dispatched job whose operation has finished answers done with the public URL, and answers the same afterwards. */
  method CompleteAndRepoll(request: VideoJobRequest, id: string, t0: string, t1: string, op: string, path: string,
                           image: ImageBackend, video: VideoBackend, complete: PollBackend, later: PollBackend)
      returns (finished: Option<JobStatus>, again: Option<JobStatus>)
    requires t1 != "" && op != ""
    requires !Contains(path, GcsScheme)
    requires forall prompt :: image(prompt).Ok?
    requires forall prompt, frame, duration :: video(prompt, frame, duration) == Ok(op)
    requires forall name :: complete(name) == Finished(Some(GcsScheme + path))
    ensures finished == Some(JobStatus(Done, Str(t1), Str(PublicPrefix + path), Nil))
    ensures again == finished
  {
    var svc := Dispatched(request, id, t0, t1, op, image, video);
    var processing := ProcessingRecord(op, t1);
    PublicUrlOfBucketPath(path);
    FinishedTransition(processing, complete, later);
    var step := Resolve(processing, complete);
    finished := svc.GetJobStatus(id, complete);
    assert svc.jobs == map[id := step.after];
    again := svc.GetJobStatus(id, later);
  }
}
