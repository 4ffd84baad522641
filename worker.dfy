/**
 * The worker endpoint (`Worker.process_job`): it accepts a JSON payload,
 * copies a legacy `caption` into `outcome`, rejects a payload that lacks
 * any required field, and otherwise runs the job pipeline once.
 */
module WorkerController {
  import opened PyValues
  import opened Text
  import opened Jobs

  /** The required payload keys, in the order the rejection lists them. */
  const Required: seq<string> := ["job_id", "title", "outcome", "original_bet_link"]

  const MissingPrefix: string := "Missing required fields: "

  /** An HTTP response: status code and JSON body. */
  datatype Response = Response(status: int, body: Dict)

  /** What the endpoint decides for a payload. */
  datatype Decision = Reject(message: string) | Dispatch(jobId: Value, payload: Dict)

  /**
   * The payload after the legacy alias: `outcome` is taken from `caption`
   * when `outcome` is falsy and `caption` truthy; nothing else changes.
   */
  function WithOutcomeAlias(data: Dict): (d: Dict)
    ensures forall k :: k != "outcome" ==> Get(d, k) == Get(data, k) && (k in d <==> k in data)
    ensures Truthy(Get(d, "outcome")) <==> Truthy(Get(data, "outcome")) || Truthy(Get(data, "caption"))
    ensures Truthy(Get(data, "outcome")) ==> Get(d, "outcome") == Get(data, "outcome")
    ensures !Truthy(Get(data, "outcome")) && Truthy(Get(data, "caption")) ==> Get(d, "outcome") == Get(data, "caption")
  {
    if !Truthy(Get(data, "outcome")) && Truthy(Get(data, "caption")) then data["outcome" := Get(data, "caption")]
    else data
  }

  /** `[key for key in keys if not data.get(key)]`. */
  function MissingFields(data: Dict, keys: seq<string>): seq<string>
  {
    if keys == [] then []
    else (if Truthy(Get(data, keys[0])) then [] else [keys[0]]) + MissingFields(data, keys[1..])
  }

  /** The missing list holds exactly the keys whose value is absent or falsy. */
  lemma {:induction false} MissingFieldsExact(data: Dict, keys: seq<string>)
    ensures forall k :: k in MissingFields(data, keys) <==> k in keys && !Truthy(Get(data, k))
    decreases |keys|
  {
    if keys != [] {
      MissingFieldsExact(data, keys[1..]);
    }
  }

  /** For the required keys the list is in the fixed order job_id, title, outcome, original_bet_link. */
  lemma MissingRequiredInOrder(data: Dict)
    ensures MissingFields(data, Required) ==
      (if Truthy(Get(data, "job_id")) then [] else ["job_id"]) +
      (if Truthy(Get(data, "title")) then [] else ["title"]) +
      (if Truthy(Get(data, "outcome")) then [] else ["outcome"]) +
      (if Truthy(Get(data, "original_bet_link")) then [] else ["original_bet_link"])
  {
    var r := Required;
    var r1, r2, r3 := r[1..], r[1..][1..], r[1..][1..][1..];
    assert r1 == ["title", "outcome", "original_bet_link"];
    assert r2 == ["outcome", "original_bet_link"];
    assert r3 == ["original_bet_link"];
    assert MissingFields(data, r3[1..]) == [];
    assert MissingFields(data, r3) == (if Truthy(Get(data, "original_bet_link")) then [] else ["original_bet_link"]);
    assert MissingFields(data, r2) == (if Truthy(Get(data, "outcome")) then [] else ["outcome"]) + MissingFields(data, r3);
    assert MissingFields(data, r1) == (if Truthy(Get(data, "title")) then [] else ["title"]) + MissingFields(data, r2);
    assert MissingFields(data, r) == (if Truthy(Get(data, "job_id")) then [] else ["job_id"]) + MissingFields(data, r1);
  }

  /** The endpoint's decision for a payload. */
  function Decide(data: Dict): (r: Decision)
    ensures r.Reject? <==> MissingFields(WithOutcomeAlias(data), Required) != []
    ensures r.Reject? ==> r.message == MissingPrefix + Join(", ", MissingFields(WithOutcomeAlias(data), Required))
    ensures r.Dispatch? ==> r.payload == WithOutcomeAlias(data) && r.jobId == data["job_id"] && Truthy(r.jobId)
  {
    var d := WithOutcomeAlias(data);
    var missing := MissingFields(d, Required);
    if missing != [] then Reject(MissingPrefix + Join(", ", missing))
    else Dispatch(d["job_id"], d)
  }

  /** The pipeline is run if and only if every required field is truthy once the alias is applied. */
  lemma DispatchIff(data: Dict)
    ensures Decide(data).Dispatch? <==> forall k :: k in Required ==> Truthy(Get(WithOutcomeAlias(data), k))
  {
    MissingFieldsExact(WithOutcomeAlias(data), Required);
    var m := MissingFields(WithOutcomeAlias(data), Required);
    if m != [] {
      assert m[0] in m;
    }
  }

  /**
   * A task body as job creation builds it for the managed queue never
   * carries `original_bet_link`, so this endpoint rejects it; the list also
   * names every other field the brief left empty.
   */
  lemma ManagedTaskRejected(request: VideoJobRequest, id: string)
    ensures var body := WithOutcomeAlias(TaskBody(id, RequestPayload(request)));
      MissingFields(body, Required) ==
        (if id == "" then ["job_id"] else []) + (if request.title == "" then ["title"] else []) +
        (if request.caption == "" then ["outcome"] else []) + ["original_bet_link"]
    ensures Decide(TaskBody(id, RequestPayload(request))).Reject?
  {
    var data := TaskBody(id, RequestPayload(request));
    var body := WithOutcomeAlias(data);
    MissingRequiredInOrder(body);
    assert Get(body, "job_id") == Str(id);
    assert Get(body, "title") == Str(request.title);
    assert Get(data, "outcome") == Nil;
    assert Get(body, "original_bet_link") == Nil;
  }

  /** A payload that passes validation but has no `caption` key (the newer shape) ends in an error record naming `caption`. */
  lemma OutcomeOnlyPayloadFails(data: Dict, image: ImageBackend, video: VideoBackend, now: string)
    requires Decide(data).Dispatch? && "caption" !in data
    ensures ProcessedRecord(Decide(data).payload, image, video, now) == ErrorRecord("'caption'", now)
  {
    var d := Decide(data).payload;
    DispatchIff(data);
    assert Truthy(Get(d, "title"));
    assert "caption" !in d;
    assert KeyErrorMessage("caption") == "'caption'";
  }

  /** The worker controller, holding the job service it dispatches to. */
  class Worker {
    const jobService: JobService

    constructor (service: JobService)
      ensures jobService == service
    {
      jobService := service;
    }

    /**
     * `process_job`: a 400 naming the missing fields and no pipeline run, or
     * one pipeline run on the aliased payload and a `processing` answer.
     * The job is keyed by `str(job_id)`.
     */
    method ProcessJob(data: Dict, image: ImageBackend, video: VideoBackend, now: string) returns (resp: Response)
      modifies jobService
      ensures var decision := Decide(data);
        && (decision.Reject? ==>
              resp == Response(400, map["error" := Str(decision.message)]) &&
              jobService.jobs == old(jobService.jobs))
        && (decision.Dispatch? ==>
              resp == Response(200, map["status" := Str("processing"), "job_id" := decision.jobId]) &&
              jobService.jobs == old(jobService.jobs)[PyStr(decision.jobId) :=
                                   ProcessedRecord(decision.payload, image, video, now)])
      ensures jobService.polled == old(jobService.polled)
    {
      var d := data;
      if !Truthy(Get(d, "outcome")) && Truthy(Get(d, "caption")) {
        d := d["outcome" := Get(d, "caption")];
      }
      var missing := MissingFields(d, Required);
      if missing != [] {
        return Response(400, map["error" := Str(MissingPrefix + Join(", ", missing))]);
      }
      var jobId := d["job_id"];
      jobService.ProcessVideoJob(PyStr(jobId), d, image, video, now);
      resp := Response(200, map["status" := Str("processing"), "job_id" := jobId]);
    }
  }
}
