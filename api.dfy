/**
 * The HTTP side of src/api.py: `POST /api/v1/process` queues one
 * background task running `process_data_task` and answers with a
 * "queued" response, and `GET /api/v1/job/{job_id}` is a stub that reports
 * every job as processing.
 *
 * The wall-clock timestamp that names a job and the creation time of the
 * response are opaque input strings. Which statement of the handler
 * raises, if any, is the explicit parameter `fault`.
 */
module Api {
  import opened Wrappers
  import Worker

  /** How the request body gives `priority`: left out, `null`, or a string. */
  datatype PriorityField = Omitted | Null | Given(value: string)

  datatype DataRequest = DataRequest(data: Worker.Payload, priority: Option<string>)

  /** The validated request; an omitted priority takes the default "normal". */
  function NewDataRequest(data: Worker.Payload, priority: PriorityField): (req: DataRequest)
    ensures req.data == data
    ensures priority.Omitted? ==> req.priority == Some("normal")
    ensures priority.Null? ==> req.priority == None
    ensures priority.Given? ==> req.priority == Some(priority.value)
  {
    match priority
    case Omitted => DataRequest(data, Some("normal"))
    case Null => DataRequest(data, None)
    case Given(p) => DataRequest(data, Some(p))
  }

  /** One queued call of `process_data_task` with its keyword arguments. */
  datatype Task = Task(jobId: string, data: Worker.Payload, priority: Option<string>)

  datatype DataResponse = DataResponse(jobId: string, status: string, message: string, createdAt: string)

  /** The handler's answer: the response body, or the `HTTPException` it raises. */
  datatype Reply = Accepted(response: DataResponse) | HttpError(statusCode: int, detail: string)

  /** The statements inside the handler's `try` block that can raise. */
  datatype ApiStep =
    | NewJobId      // reading the clock for the job id
    | Enqueue       // `background_tasks.add_task`
    | AfterEnqueue  // building the response, after the task is queued

  datatype ApiFault = NoApiFault | ApiRaises(at: ApiStep, message: string)

  predicate RaisesAt(fault: ApiFault, step: ApiStep) {
    fault.ApiRaises? && fault.at == step
  }

  /** The job id built from the timestamp's text. */
  function JobId(stamp: string): (id: string)
    ensures |id| == |stamp| + 4 && id[..4] == "job_" && id[4..] == stamp
  {
    "job_" + stamp
  }

  /** Distinct timestamps give distinct job ids. */
  lemma JobIdInjective(a: string, b: string)
    ensures JobId(a) == JobId(b) <==> a == b
  {
  }

  datatype Submission = Submission(tasks: seq<Task>, reply: Reply)

  /** The queue and the reply after one call of `process_data`. */
  function Submit(tasks: seq<Task>, request: DataRequest, stamp: string, createdAt: string, fault: ApiFault): (sub: Submission)
    ensures sub.reply.HttpError? ==> sub.reply.statusCode == 500
    ensures |tasks| <= |sub.tasks| <= |tasks| + 1 && sub.tasks[..|tasks|] == tasks
    ensures sub.reply.Accepted? ==> |sub.tasks| == |tasks| + 1 && sub.tasks[|tasks|].jobId == sub.reply.response.jobId
  {
    if RaisesAt(fault, NewJobId) || RaisesAt(fault, Enqueue) then
      Submission(tasks, HttpError(500, fault.message))
    else
      var queued := tasks + [Task(JobId(stamp), request.data, request.priority)];
      if RaisesAt(fault, AfterEnqueue) then Submission(queued, HttpError(500, fault.message))
      else Submission(queued, Accepted(DataResponse(JobId(stamp), "queued", "Job queued for processing", createdAt)))
  }

  /**
   * A call that raises nothing appends exactly one task, which carries the
   * job id it answers with and the request's data and priority, and answers
   * "queued" with the fixed message.
   */
  lemma SubmitQueuesOne(tasks: seq<Task>, request: DataRequest, stamp: string, createdAt: string)
    ensures var sub := Submit(tasks, request, stamp, createdAt, NoApiFault);
      && sub.reply.Accepted?
      && sub.tasks == tasks + [Task(sub.reply.response.jobId, request.data, request.priority)]
      && sub.reply.response.status == "queued"
      && sub.reply.response.message == "Job queued for processing"
      && sub.reply.response.createdAt == createdAt
      && |sub.reply.response.jobId| >= 4 && sub.reply.response.jobId[..4] == "job_"
  {
  }

  /**
   * Whatever raises becomes an HTTP 500 whose detail is the exception's
   * message; the queue keeps every earlier task and gains at most one, and
   * it gains one exactly when the exception came after the task was queued.
   */
  lemma SubmitFailure(tasks: seq<Task>, request: DataRequest, stamp: string, createdAt: string, fault: ApiFault)
    requires fault.ApiRaises?
    ensures var sub := Submit(tasks, request, stamp, createdAt, fault);
      && sub.reply == HttpError(500, fault.message)
      && |tasks| <= |sub.tasks| <= |tasks| + 1
      && sub.tasks[..|tasks|] == tasks
      && (|sub.tasks| == |tasks| + 1 <==> fault.at == AfterEnqueue)
  {
  }

  /** The handler answers with a response exactly when nothing raised. */
  lemma AcceptedIffNoFault(tasks: seq<Task>, request: DataRequest, stamp: string, createdAt: string, fault: ApiFault)
    ensures Submit(tasks, request, stamp, createdAt, fault).reply.Accepted? <==> fault == NoApiFault
  {
  }

  /**
   * The tasks the framework runs once the request is answered: the queue
   * collected during the request when the handler returned a response, and
   * none when it raised.
   */
  function Dispatched(sub: Submission): (run: seq<Task>)
    ensures sub.reply.Accepted? ==> run == sub.tasks
    ensures sub.reply.HttpError? ==> run == []
  {
    if sub.reply.Accepted? then sub.tasks else []
  }

  /**
   * A request runs exactly one task, the job it answers with, when nothing
   * raises, and no task at all otherwise, even when the exception came after
   * the task was queued.
   */
  lemma DispatchedIffNoFault(request: DataRequest, stamp: string, createdAt: string, fault: ApiFault)
    ensures var sub := Submit([], request, stamp, createdAt, fault);
      && (fault == NoApiFault ==> Dispatched(sub) == [Task(sub.reply.response.jobId, request.data, request.priority)])
      && (fault != NoApiFault ==> Dispatched(sub) == [])
      && (RaisesAt(fault, AfterEnqueue) ==> |sub.tasks| == 1)
  {
    AcceptedIffNoFault([], request, stamp, createdAt, fault);
    if fault == NoApiFault {
      SubmitQueuesOne([], request, stamp, createdAt);
    }
  }

  /** The queue that `BackgroundTasks` collects during one request. */
  class BackgroundTasks {
    var tasks: seq<Task>

    constructor ()
      ensures tasks == []
    {
      tasks := [];
    }

    /** `add_task(process_data_task, job_id=…, data=…, priority=…)` */
    method AddTask(t: Task)
      modifies this
      ensures tasks == old(tasks) + [t]
    {
      tasks := tasks + [t];
    }
  }

  /** `process_data(request, background_tasks)` */
  method ProcessData(request: DataRequest, stamp: string, createdAt: string, bg: BackgroundTasks, fault: ApiFault)
    returns (reply: Reply)
    modifies bg
    ensures Submission(bg.tasks, reply) == Submit(old(bg.tasks), request, stamp, createdAt, fault)
  {
    if RaisesAt(fault, NewJobId) {
      return HttpError(500, fault.message);
    }
    var jobId := JobId(stamp);
    if RaisesAt(fault, Enqueue) {
      return HttpError(500, fault.message);
    }
    bg.AddTask(Task(jobId, request.data, request.priority));
    if RaisesAt(fault, AfterEnqueue) {
      return HttpError(500, fault.message);
    }
    reply := Accepted(DataResponse(jobId, "queued", "Job queued for processing", createdAt));
  }

  /** The body of `GET /api/v1/job/{job_id}`. */
  datatype JobStatus = JobStatus(jobId: string, status: string, progress: real)

  /** The stub status lookup: it consults no store and answers the same for every id. */
  function GetJobStatus(jobId: string): (s: JobStatus)
    ensures s.jobId == jobId
    ensures s.status == "processing" && s.progress == 0.0
  {
    JobStatus(jobId, "processing", 0.0)
  }

  /**
   * The task a successful request dispatches, run by the worker without a
   * fault, ends with a "completed" record under the id the client was given,
   * and the worker's result names that id.
   */
  lemma SubmittedJobCompletes(request: DataRequest, stamp: string, createdAt: string,
                              st: Worker.Stores, r: Worker.Renderer)
    ensures var sub := Submit([], request, stamp, createdAt, NoApiFault);
      |Dispatched(sub)| == 1 &&
      var t := Dispatched(sub)[0];
      var run := Worker.RunTask(st, t.jobId, t.data, r, Worker.NoFault);
      && sub.reply.Accepted?
      && Worker.Field(run.stores.records, Worker.JobKey(sub.reply.response.jobId), "status") == Some("completed")
      && run.outcome == Worker.Returned(Worker.JobResult(true, |r.text(request.data)|, sub.reply.response.jobId))
  {
    var sub := Submit([], request, stamp, createdAt, NoApiFault);
    DispatchedIffNoFault(request, stamp, createdAt, NoApiFault);
    var t := Dispatched(sub)[0];
    assert t == Task(sub.reply.response.jobId, request.data, request.priority);
    Worker.CompletedRun(st, t.jobId, t.data, r);
  }

  /**
   * The stub disagrees with the worker: after a run that completed the
   * job, the status route still reports it as processing with progress 0.0.
   */
  lemma StatusIgnoresCompletedRecord(st: Worker.Stores, jobId: string, data: Worker.Payload, r: Worker.Renderer)
    ensures var records := Worker.RunTask(st, jobId, data, r, Worker.NoFault).stores.records;
      && Worker.Field(records, Worker.JobKey(jobId), "status") == Some("completed")
      && Worker.Field(records, Worker.JobKey(jobId), "progress") == Some("1.0")
      && GetJobStatus(jobId).status == "processing"
      && GetJobStatus(jobId).progress == 0.0
  {
    Worker.CompletedRun(st, jobId, data, r);
  }
}
