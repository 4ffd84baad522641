/**
 * The job orchestration core of the backend (`JobService`): an in-memory
 * table of job records, creation of a pending job, the generation pipeline
 * run (start frame, then video operation), status polls that advance a
 * finished backend operation to `done`, and merge-patch updates.
 *
 * The generation backend is abstract: each call site receives the backend's
 * answer as a function parameter. The clock (`datetime.now().isoformat()`)
 * and the id generator (`uuid4`) are parameters too.
 */
module Jobs {
  import opened Wrappers
  import opened PyValues
  import opened Text

  newtype byte = x: int | 0 <= x < 256
  type Bytes = seq<byte>

  /** A backend call either returns a value or raises; `message` is `str(e)`. */
  datatype Outcome<T> = Ok(value: T) | Raised(message: string)

  /**
   * What polling an operation by name reports: not finished, or finished
   * with the URI of its first generated video (which may be None). A poll
   * never reports an error.
   */
  datatype PollResult = NotDone | Finished(videoUri: Option<string>)

  /** The client-facing status literal: "waiting", "error" or "done". */
  datatype StatusKind = Waiting | Failed | Done

  /** `JobStatus` as `get_job_status` builds it (job_end_time and bet are never set there). */
  datatype JobStatus = JobStatus(status: StatusKind, jobStartTime: Value, videoUrl: Value, error: Value)

  /** `VideoJobRequest`: the brief posted to job creation (`bet` is not read by the core). */
  datatype VideoJobRequest = VideoJobRequest(title: string, caption: string, durationSeconds: int)

  /** One status poll: the response, the job's record afterwards, and the backend polls it issued. */
  datatype StatusStep = StatusStep(response: Option<JobStatus>, after: Dict, polls: seq<Value>)

  const GcsScheme: string := "gs://"
  const PublicPrefix: string := "https://storage.googleapis.com/"
  const DefaultDurationSeconds: int := 6

  /** Image backend: prompt to image bytes. */
  type ImageBackend = string -> Outcome<Bytes>
  /** Video backend: prompt, start frame and duration to the started operation's name. */
  type VideoBackend = (string, Bytes, Value) -> Outcome<string>
  /** Poll backend: operation name to its current state. */
  type PollBackend = Value -> PollResult

  // ---------------------------------------------------------------------
  // Record shapes

  function PendingRecord(now: string): Dict
  {
    map["status" := Str("pending"), "job_start_time" := Str(now)]
  }

  function ProcessingRecord(operationName: string, now: string): Dict
  {
    map["status" := Str("processing"), "operation_name" := Str(operationName), "job_start_time" := Str(now)]
  }

  function ErrorRecord(message: string, now: string): Dict
  {
    map["status" := Str("error"), "error" := Str(message), "job_start_time" := Str(now)]
  }

  /** `str(KeyError(key))` for a plain key: the key in single quotes. */
  function KeyErrorMessage(key: string): string
  {
    "'" + key + "'"
  }

  /** The payload `create_video_job` hands to dispatch. */
  function RequestPayload(request: VideoJobRequest): Dict
  {
    map["title" := Str(request.title), "caption" := Str(request.caption),
        "duration_seconds" := Int(request.durationSeconds)]
  }

  /** The JSON body of the managed-queue task: `{"job_id": job_id, **job_data}`. */
  function TaskBody(jobId: string, jobData: Dict): Dict
  {
    map["job_id" := Str(jobId)] + jobData
  }

  /** The prompt for both backend calls: `f"{title}\n{caption}"`. */
  function FramePrompt(title: Value, caption: Value): string
  {
    PyStr(title) + "\n" + PyStr(caption)
  }

  /** The duration handed to the video backend: `job_data.get("duration_seconds", 6)`. */
  function Duration(jobData: Dict): Value
  {
    if "duration_seconds" in jobData then jobData["duration_seconds"] else Int(DefaultDurationSeconds)
  }

  // ---------------------------------------------------------------------
  // Specification functions

  /** The whole record `process_video_job` stores for a payload. */
  function ProcessedRecord(jobData: Dict, image: ImageBackend, video: VideoBackend, now: string): Dict
  {
    if "title" !in jobData then ErrorRecord(KeyErrorMessage("title"), now)
    else if "caption" !in jobData then ErrorRecord(KeyErrorMessage("caption"), now)
    else
      var prompt := FramePrompt(jobData["title"], jobData["caption"]);
      match image(prompt)
      case Raised(m) => ErrorRecord(m, now)
      case Ok(frame) =>
        match video(prompt, frame, Duration(jobData))
        case Raised(m) => ErrorRecord(m, now)
        case Ok(name) => ProcessingRecord(name, now)
  }

  /** The client URL for a finished video's URI: `gs://` rewritten to the public host; a missing or empty URI gives None. */
  function PublicUrl(uri: Option<string>): Value
  {
    if uri.Some? && uri.value != "" then Str(ReplaceAll(uri.value, GcsScheme, PublicPrefix)) else Nil
  }

  /** `get_job_status` on a stored record. */
  function Resolve(job: Dict, poll: PollBackend): StatusStep
  {
    var status := Get(job, "status");
    var start := if Truthy(Get(job, "job_start_time")) then job["job_start_time"] else Nil;
    if status == Str("pending") then
      StatusStep(Some(JobStatus(Waiting, start, Nil, Nil)), job, [])
    else if status == Str("error") then
      StatusStep(Some(JobStatus(Failed, start, Nil, Get(job, "error"))), job, [])
    else if status == Str("done") then
      StatusStep(Some(JobStatus(Done, start, Get(job, "video_url"), Nil)), job, [])
    else if status == Str("processing") && Truthy(Get(job, "operation_name")) then
      var name := job["operation_name"];
      match poll(name)
      case Finished(uri) =>
        var url := PublicUrl(uri);
        StatusStep(Some(JobStatus(Done, start, url, Nil)), job["status" := Str("done")]["video_url" := url], [name])
      case NotDone =>
        StatusStep(Some(JobStatus(Waiting, start, Nil, Nil)), job, [name])
    else
      StatusStep(None, job, [])
  }

  // ---------------------------------------------------------------------
  // The service object

  class JobService {
    /** `self.jobs`: job id to record. */
    var jobs: map<string, Dict>
    /** The operation names polled at the backend so far, in order. */
    ghost var polled: seq<Value>

    constructor ()
      ensures jobs == map[] && polled == []
    {
      jobs := map[];
      polled := [];
    }

    /**
     * `create_video_job`: stores a pending record under the new id and
     * returns the id and the payload that is then dispatched (to the
     * managed queue as TaskBody(id, payload), or to ProcessVideoJob).
     */
    method CreateVideoJob(request: VideoJobRequest, newId: string, now: string) returns (jobId: string, jobData: Dict)
      modifies this
      ensures jobId == newId
      ensures jobs == old(jobs)[jobId := PendingRecord(now)]
      ensures jobData == RequestPayload(request)
      ensures polled == old(polled)
    {
      jobId := newId;
      jobs := jobs[jobId := map["status" := Str("pending"), "job_start_time" := Str(now)]];
      jobData := map["title" := Str(request.title), "caption" := Str(request.caption),
                     "duration_seconds" := Int(request.durationSeconds)];
    }

    /** `process_video_job`: runs the pipeline and replaces the whole record. */
    method ProcessVideoJob(jobId: string, jobData: Dict, image: ImageBackend, video: VideoBackend, now: string)
      modifies this
      ensures jobs == old(jobs)[jobId := ProcessedRecord(jobData, image, video, now)]
      ensures polled == old(polled)
    {
      if "title" !in jobData {
        jobs := jobs[jobId := ErrorRecord(KeyErrorMessage("title"), now)];
        return;
      }
      var title := jobData["title"];
      if "caption" !in jobData {
        jobs := jobs[jobId := ErrorRecord(KeyErrorMessage("caption"), now)];
        return;
      }
      var caption := jobData["caption"];
      var duration := if "duration_seconds" in jobData then jobData["duration_seconds"] else Int(DefaultDurationSeconds);

      var startFrame := image(PyStr(title) + "\n" + PyStr(caption));
      if startFrame.Raised? {
        jobs := jobs[jobId := ErrorRecord(startFrame.message, now)];
        return;
      }
      var prompt := PyStr(title) + "\n" + PyStr(caption);
      var operation := video(prompt, startFrame.value, duration);
      if operation.Raised? {
        jobs := jobs[jobId := ErrorRecord(operation.message, now)];
        return;
      }
      jobs := jobs[jobId := map["status" := Str("processing"), "operation_name" := Str(operation.value),
                                "job_start_time" := Str(now)]];
    }

    /** `get_job_status`: None for an unknown id, otherwise the resolver's answer; a finished poll rewrites the record in place. */
    method GetJobStatus(jobId: string, poll: PollBackend) returns (st: Option<JobStatus>)
      modifies this
      ensures jobId !in old(jobs) ==> st == None && jobs == old(jobs) && polled == old(polled)
      ensures jobId in old(jobs) ==>
        var step := Resolve(old(jobs)[jobId], poll);
        st == step.response && jobs == old(jobs)[jobId := step.after] && polled == old(polled) + step.polls
    {
      if jobId !in jobs {
        return None;
      }
      var job := jobs[jobId];
      var status := Get(job, "status");
      var start := if Truthy(Get(job, "job_start_time")) then job["job_start_time"] else Nil;

      if status == Str("pending") {
        return Some(JobStatus(Waiting, start, Nil, Nil));
      }
      if status == Str("error") {
        return Some(JobStatus(Failed, start, Nil, Get(job, "error")));
      }
      if status == Str("done") {
        return Some(JobStatus(Done, start, Get(job, "video_url"), Nil));
      }
      if status == Str("processing") && Truthy(Get(job, "operation_name")) {
        var name := job["operation_name"];
        var result := poll(name);
        polled := polled + [name];
        if result.Finished? {
          var url := if result.videoUri.Some? && result.videoUri.value != ""
                     then Str(ReplaceAll(result.videoUri.value, GcsScheme, PublicPrefix)) else Nil;
          jobs := jobs[jobId := jobs[jobId]["status" := Str("done")]];
          jobs := jobs[jobId := jobs[jobId]["video_url" := url]];
          return Some(JobStatus(Done, start, url, Nil));
        }
        return Some(JobStatus(Waiting, start, Nil, Nil));
      }
      return None;
    }

    /** `update_job`: merge `data` into an existing record, or store it as the record of a new id. */
    method UpdateJob(jobId: string, data: Dict)
      modifies this
      ensures jobId in old(jobs) ==> jobs == old(jobs)[jobId := old(jobs)[jobId] + data]
      ensures jobId !in old(jobs) ==> jobs == old(jobs)[jobId := data]
      ensures polled == old(polled)
    {
      if jobId in jobs {
        jobs := jobs[jobId := jobs[jobId] + data];
      } else {
        jobs := jobs[jobId := data];
      }
    }
  }
}
